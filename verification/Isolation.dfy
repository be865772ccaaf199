/**
 Generation isolation call by call, with spec edits between any two calls: ObservedGeneration
 never decreases and never exceeds Generation, and the outcome fields of status change only
 in the patch that reflects a Job annotated with the very generation that patch read.
 */
module Isolation {
  import opened Base
  import opened GitMirrorStatus
  import opened Scheduling
  import opened SmallStep

  predicate Annotated(items: seq<Job>) {
    forall k :: 0 <= k < |items| ==> items[k].annotation.At?
  }

  /** What a patch read still matches the server on the fields that only reconciles write. */
  predicate ReadOk(w: World, read: Mirror) {
    var a, b := read.status, w.mirror.status;
    && read.generation <= w.mirror.generation
    && a.observedGeneration <= read.generation
    && a.observedGeneration == b.observedGeneration
    && a.lastCompletedJobName == b.lastCompletedJobName
    && a.lastError == b.lastError
    && a.lastMirroredRevision == b.lastMirroredRevision
  }

  predicate HasContext(pc: Pc) {
    !pc.Idle? && !pc.ListJobs?
  }

  predicate PcIsolated(w: World, pc: Pc) {
    && (HasContext(pc) ==> Annotated(pc.ctx.items))
    && (pc.ReflectPatch? ==> ReadOk(w, pc.read))
    && (pc.SchedulePatch? ==> ReadOk(w, pc.read))
    && (pc.CoalescePatch? ==> ReadOk(w, pc.read))
  }

  predicate Isolated(s: Sys) {
    && (forall n :: n in s.w.jobs ==> s.w.jobs[n].annotation.At?)
    && s.w.mirror.status.observedGeneration <= s.w.mirror.generation
    && PcIsolated(s.w, s.pc)
  }

  predicate OutcomeKept(a: Status, b: Status) {
    && a.lastCompletedJobName == b.lastCompletedJobName
    && a.lastError == b.lastError
    && a.lastMirroredRevision == b.lastMirroredRevision
  }

  /** The step is the completion patch of a Job of the generation the patch read. */
  predicate ReflectsOwnGeneration(s: Sys, a: Act, s': Sys) {
    && a.Call? && s.pc.ReflectPatch? && s.pc.i < |s.pc.ctx.items|
    && var job := s.pc.ctx.items[s.pc.i];
    && job.annotation == At(s.pc.read.generation)
    && s'.w.mirror.status.lastCompletedJobName == Some(job.name)
    && s'.w.mirror.status.observedGeneration == s.pc.read.generation
  }

  /** What every single step respects. */
  predicate StepIsolated(s: Sys, a: Act, s': Sys) {
    var m, m' := s.w.mirror, s'.w.mirror;
    && m.generation <= m'.generation
    && m.status.observedGeneration <= m'.status.observedGeneration <= m'.generation
    && (OutcomeKept(m.status, m'.status) || ReflectsOwnGeneration(s, a, s'))
  }

  lemma PatchIsolated(w: World, read: Mirror, mutated: Mirror)
    requires ReadOk(w, read)
    requires mutated.status.observedGeneration == read.status.observedGeneration
          || mutated.status.observedGeneration == read.generation
    ensures var o' := PatchMirror(w, read, mutated).mirror.status.observedGeneration;
            && w.mirror.status.observedGeneration <= o' <= w.mirror.generation
            && o' == mutated.status.observedGeneration
    ensures OutcomeKept(read.status, mutated.status) ==>
              OutcomeKept(w.mirror.status, PatchMirror(w, read, mutated).mirror.status)
    ensures PatchMirror(w, read, mutated).mirror.status.lastCompletedJobName == mutated.status.lastCompletedJobName
  {}

  /** A completion mutation touches the outcome only for a Job of the generation it read. */
  lemma ReflectedIsolated(m: Mirror, job: Job, now: Time)
    requires job.annotation.At?
    ensures var (m', _) := Reflected(m, job, now);
            || m' == m
            || (&& job.annotation == At(m.generation)
                && m'.status.lastCompletedJobName == Some(job.name)
                && m'.status.observedGeneration == m.generation)
  {}

  /** The three patches. */
  lemma PatchCallIsolated(w: World, pc: Pc, cron: Cron)
    requires Isolated(Sys(w, pc)) && Ok(pc) && (pc.ReflectPatch? || pc.SchedulePatch? || pc.CoalescePatch?)
    ensures var (w', pc') := Do(w, pc, cron);
            Isolated(Sys(w', pc')) && StepIsolated(Sys(w, pc), Call, Sys(w', pc'))
  {
    if pc.ReflectPatch? {
      ReflectedIsolated(pc.read, pc.ctx.items[pc.i], pc.ctx.now);
      PatchIsolated(w, pc.read, Reflected(pc.read, pc.ctx.items[pc.i], pc.ctx.now).0);
    } else if pc.SchedulePatch? {
      PatchIsolated(w, pc.read, ScheduleMutation(pc.ctx, pc.req, pc.read));
    } else {
      PatchIsolated(w, pc.read, WebhookState(pc.read, "scheduled", pc.ctx.now, true));
    }
  }

  lemma CallIsolated(w: World, pc: Pc, cron: Cron)
    requires Isolated(Sys(w, pc)) && Enabled(Sys(w, pc), Call)
    ensures var (w', pc') := Do(w, pc, cron);
            Isolated(Sys(w', pc')) && StepIsolated(Sys(w, pc), Call, Sys(w', pc'))
  {
    if pc.ReflectPatch? || pc.SchedulePatch? || pc.CoalescePatch? {
      PatchCallIsolated(w, pc, cron);
    }
  }

  lemma StepKeepsIsolation(s: Sys, a: Act, cron: Cron)
    requires Isolated(s) && Enabled(s, a)
    ensures Isolated(Next(s, a, cron)) && StepIsolated(s, a, Next(s, a, cron))
  {
    if a.Call? {
      CallIsolated(s.w, s.pc, cron);
    } else if a.List? {
      var all, g := Listed(a.order, s.w.jobs), s.pc.snap.generation;
      FilterMembers(all, g);
      var items := JobsForGeneration(all, g);
      forall k | 0 <= k < |items| ensures items[k].annotation.At? {
        assert items[k] in all;
      }
    }
  }

  lemma {:induction false} RunIsolated(s: Sys, acts: seq<Act>, cron: Cron)
    requires Isolated(s) && ValidRun(s, acts, cron)
    ensures Isolated(Execute(s, acts, cron))
    decreases |acts|
  {
    if acts != [] {
      StepKeepsIsolation(s, acts[0], cron);
      RunIsolated(Next(s, acts[0], cron), acts[1..], cron);
    }
  }

  /** Generation isolation: every step after every run, wherever the edits fall. */
  lemma GenerationIsolation(schedule: string, clock: Time, acts: seq<Act>, a: Act, cron: Cron)
    requires ValidRun(Sys(Initial(schedule, clock), Idle), acts, cron)
    requires Enabled(Execute(Sys(Initial(schedule, clock), Idle), acts, cron), a)
    ensures var s := Execute(Sys(Initial(schedule, clock), Idle), acts, cron);
            StepIsolated(s, a, Next(s, a, cron))
  {
    var s0 := Sys(Initial(schedule, clock), Idle);
    RunIsolated(s0, acts, cron);
    StepKeepsIsolation(Execute(s0, acts, cron), a, cron);
  }
}
