/**
 How often the cron fallback can start a sync.  For every schedule whose next time lies ahead
 and grows with the time it is asked for, scheduled Jobs are a next time apart, and any count
 that grows from one next time to the next bounds their number: the ticks of a schedule given
 by ticks, the periods of one given by a delay.  That holds exactly for the schedules that
 always have a next time: for one that never fires again the library returns the zero time,
 which counts as due, and every idle reconcile starts a sync.
 */
module FallbackRate {
  import opened Base
  import opened GitMirrorStatus
  import opened Scheduling
  import opened Invariants
  import opened Runs
  import opened Reachability

  /** `next` is the least tick after `t`, or there is none. */
  ghost predicate NextAfter(next: Option<Time>, tick: Time -> bool, t: Time) {
    match next
    case Some(n) => t < n && tick(n) && forall u :: t < u < n ==> !tick(u)
    case None => forall u :: t < u ==> !tick(u)
  }

  ghost predicate IsNext(cron: Cron, spec: string, tick: Time -> bool) {
    forall t :: NextAfter(cron.next(spec, t), tick, t)
  }

  /** A next time lies ahead, and does not move back as time passes. */
  ghost predicate Steady(cron: Cron, spec: string) {
    && (forall t :: cron.next(spec, t).Some? ==> t < cron.next(spec, t).value)
    && (forall a, b :: a <= b && cron.next(spec, a).Some? && cron.next(spec, b).Some? ==>
          cron.next(spec, a).value <= cron.next(spec, b).value)
  }

  /** Once there is no next time, there never is again. */
  ghost predicate Final(cron: Cron, spec: string) {
    forall a, b :: a <= b && cron.next(spec, a).None? ==> cron.next(spec, b).None?
  }

  /** After every time past `start` the schedule fires again. */
  ghost predicate AlwaysFires(cron: Cron, spec: string, start: Time) {
    forall t :: t > start ==> cron.next(spec, t).Some?
  }

  /** The number of ticks in the half-open interval (lo, hi]. */
  function Ticks(tick: Time -> bool, lo: Time, hi: Time): nat
    decreases if lo < hi then hi - lo else 0
  {
    if hi <= lo then 0 else Ticks(tick, lo, hi - 1) + (if tick(hi) then 1 else 0)
  }

  lemma {:induction false} TicksAdd(tick: Time -> bool, lo: Time, mid: Time, hi: Time)
    requires lo <= mid <= hi
    ensures Ticks(tick, lo, hi) == Ticks(tick, lo, mid) + Ticks(tick, mid, hi)
    decreases hi - mid
  {
    if mid < hi {
      TicksAdd(tick, lo, mid, hi - 1);
    }
  }

  /** The creation times of the scheduled Jobs, in order. */
  function ScheduledTimes(created: seq<Created>): seq<Time> {
    if created == [] then []
    else
      var rest, last := ScheduledTimes(created[..|created| - 1]), created[|created| - 1];
      if last.name.ForSchedule? then rest + [last.name.at] else rest
  }

  lemma ScheduledTimesAppend(c: seq<Created>, x: Created)
    ensures ScheduledTimes(c + [x]) ==
            if x.name.ForSchedule? then ScheduledTimes(c) + [x.name.at] else ScheduledTimes(c)
  {}

  /** The next time after `a` has come by `b`. */
  predicate TickBetween(cron: Cron, spec: string, a: Time, b: Time) {
    var next := cron.next(spec, a);
    next.Some? && next.value <= b
  }

  ghost predicate Spaced(cron: Cron, spec: string, ts: seq<Time>) {
    forall i :: 0 < i < |ts| ==> TickBetween(cron, spec, ts[i - 1], ts[i])
  }

  /** A due time is no earlier than the next time after any earlier one. */
  lemma TickSooner(cron: Cron, spec: string, a: Time, b: Time, now: Time)
    requires Steady(cron, spec) && a <= b && TickBetween(cron, spec, b, now) && cron.next(spec, a).Some?
    ensures TickBetween(cron, spec, a, now)
  {}

  /** From `start` on, `count` never falls, and grows from each time to its next. */
  ghost predicate Counts(cron: Cron, spec: string, count: Time -> int, start: Time) {
    && (forall a, b :: start <= a <= b ==> count(a) <= count(b))
    && (forall a, b :: start <= a <= b && TickBetween(cron, spec, a, b) ==> count(a) + 1 <= count(b))
  }

  /******* The bound *******/

  /** The scheduled Jobs are a next time apart, and no more than counted up to the last trigger. */
  ghost predicate Rated(w: World, cron: Cron, spec: string, count: Time -> int, start: Time) {
    var ts, t := ScheduledTimes(w.history.created), w.mirror.status.lastTriggeredAt;
    && w.mirror.schedule == spec
    && start <= w.history.clock
    && Spaced(cron, spec, ts)
    && (forall i :: 0 <= i < |ts| ==> start < ts[i])
    && (t.Some? ==> start < t.value && |ts| <= count(t.value) - count(start) && (ts != [] ==> ts[|ts| - 1] <= t.value))
  }

  ghost predicate Regular(cron: Cron, spec: string, count: Time -> int, start: Time) {
    Steady(cron, spec) && AlwaysFires(cron, spec, start) && Counts(cron, spec, count, start)
  }

  lemma ScheduledRated(w: World, w': World, cron: Cron, spec: string, count: Time -> int, start: Time, now: Time)
    requires Inv(w) && Rated(w, cron, spec, count, start) && Regular(cron, spec, count, start)
    requires !Unobserved(w.mirror) && FallbackDue(cron, w.mirror, now)
    requires w'.mirror.schedule == spec && w'.history.clock == now && w'.mirror.status.lastTriggeredAt == Some(now)
    requires ScheduledTimes(w'.history.created) == ScheduledTimes(w.history.created) + [now]
    ensures Rated(w', cron, spec, count, start)
  {
    var ts, t := ScheduledTimes(w.history.created), w.mirror.status.lastTriggeredAt.value;
    assert cron.next(spec, t).Some? && TickBetween(cron, spec, t, now) && t < now;
    if ts != [] {
      TickSooner(cron, spec, ts[|ts| - 1], t, now);
    }
  }

  lemma EffectRated(w: World, w': World, cron: Cron, spec: string, count: Time -> int, start: Time, now: Time)
    requires Inv(w) && Rated(w, cron, spec, count, start) && Regular(cron, spec, count, start)
    requires now > w.history.clock && Effect(w, w', cron, now)
    ensures Rated(w', cron, spec, count, start)
  {
    var c, c' := w.history.created, w'.history.created;
    if c' != c {
      var x :| c' == c + [x] && MayCreate(w, x, cron, now);
      ScheduledTimesAppend(c, x);
      if x.name.ForSchedule? {
        ScheduledRated(w, w', cron, spec, count, start, now);
      }
    }
  }

  /** A run whose edits keep the schedule. */
  predicate KeepsSchedule(steps: seq<Step>, spec: string) {
    forall i :: 0 <= i < |steps| && steps[i].EditStep? ==> steps[i].schedule == spec
  }

  lemma StepRated(w: World, s: Step, cron: Cron, spec: string, count: Time -> int, start: Time)
    requires Inv(w) && Rated(w, cron, spec, count, start) && Regular(cron, spec, count, start)
    requires Enabled(w, s) && (s.EditStep? ==> s.schedule == spec)
    ensures Rated(Next(w, s, cron), cron, spec, count, start)
  {
    if s.ReconcileStep? {
      ReconcileIsResult(w, s.order, cron, s.now);
      ReconcileEffect(w, cron, s.now);
      EffectRated(w, ReconcileResult(w, cron, s.now), cron, spec, count, start, s.now);
    }
  }

  lemma {:induction false} RunRated(w: World, steps: seq<Step>, cron: Cron, spec: string,
                                    count: Time -> int, start: Time)
    requires Inv(w) && Rated(w, cron, spec, count, start) && Regular(cron, spec, count, start)
    requires ValidRun(w, steps, cron) && KeepsSchedule(steps, spec)
    ensures Inv(Execute(w, steps, cron)) && Rated(Execute(w, steps, cron), cron, spec, count, start)
    decreases |steps|
  {
    if steps != [] {
      StepInv(w, steps[0], cron);
      StepRated(w, steps[0], cron, spec, count, start);
      assert KeepsSchedule(steps[1..], spec);
      RunRated(Next(w, steps[0], cron), steps[1..], cron, spec, count, start);
    }
  }

  /**
   For a steady schedule that always fires again, in every run that keeps it: scheduled Jobs
   are a next time apart, and no more than counted since the start.
   */
  lemma FallbackRateBound(spec: string, start: Time, steps: seq<Step>, cron: Cron, count: Time -> int)
    requires Regular(cron, spec, count, start)
    requires KeepsSchedule(steps, spec) && ValidRun(Initial(spec, start), steps, cron)
    ensures var w := Execute(Initial(spec, start), steps, cron);
            var ts := ScheduledTimes(w.history.created);
            Spaced(cron, spec, ts) && |ts| <= count(w.history.clock) - count(start)
  {
    InitialInv(spec, start);
    RunRated(Initial(spec, start), steps, cron, spec, count, start);
  }

  /******* Schedules given by ticks *******/

  lemma TicksSteady(cron: Cron, spec: string, tick: Time -> bool)
    requires IsNext(cron, spec, tick)
    ensures Steady(cron, spec)
  {
    forall t | cron.next(spec, t).Some? ensures t < cron.next(spec, t).value {
      assert NextAfter(cron.next(spec, t), tick, t);
    }
    forall a, b | a <= b && cron.next(spec, a).Some? && cron.next(spec, b).Some?
      ensures cron.next(spec, a).value <= cron.next(spec, b).value
    {
      assert NextAfter(cron.next(spec, a), tick, a) && NextAfter(cron.next(spec, b), tick, b);
    }
  }

  lemma TicksFinal(cron: Cron, spec: string, tick: Time -> bool)
    requires IsNext(cron, spec, tick)
    ensures Final(cron, spec)
  {
    forall a, b | a <= b && cron.next(spec, a).None? ensures cron.next(spec, b).None? {
      assert NextAfter(cron.next(spec, a), tick, a) && NextAfter(cron.next(spec, b), tick, b);
    }
  }

  lemma TicksCount(cron: Cron, spec: string, tick: Time -> bool, start: Time)
    requires IsNext(cron, spec, tick)
    ensures Counts(cron, spec, t => Ticks(tick, start, t), start)
  {
    forall a, b | start <= a <= b ensures Ticks(tick, start, a) <= Ticks(tick, start, b) {
      TicksAdd(tick, start, a, b);
    }
    forall a, b | start <= a <= b && TickBetween(cron, spec, a, b)
      ensures Ticks(tick, start, a) + 1 <= Ticks(tick, start, b)
    {
      var n := cron.next(spec, a).value;
      assert NextAfter(cron.next(spec, a), tick, a);
      TicksAdd(tick, start, a, n - 1);
      TicksAdd(tick, start, n, b);
    }
  }

  /** What the bound says of one run of such a schedule. */
  ghost predicate WithinRate(w: World, cron: Cron, spec: string, tick: Time -> bool, start: Time) {
    var ts := ScheduledTimes(w.history.created);
    Spaced(cron, spec, ts) && |ts| <= Ticks(tick, start, w.history.clock)
  }

  /** A schedule given by ticks: no more scheduled Jobs than ticks. */
  lemma TickRate(spec: string, start: Time, steps: seq<Step>, cron: Cron, tick: Time -> bool)
    requires IsNext(cron, spec, tick) && AlwaysFires(cron, spec, start)
    requires KeepsSchedule(steps, spec) && ValidRun(Initial(spec, start), steps, cron)
    ensures WithinRate(Execute(Initial(spec, start), steps, cron), cron, spec, tick, start)
  {
    TicksSteady(cron, spec, tick);
    TicksCount(cron, spec, tick, start);
    FallbackRateBound(spec, start, steps, cron, t => Ticks(tick, start, t));
  }

  /******* Schedules given by a delay *******/

  /** @every: `delay` units after the last full unit, a second. */
  ghost predicate IsEvery(cron: Cron, spec: string, unit: nat, delay: nat) {
    unit > 0 && delay > 0 && forall t :: cron.next(spec, t) == Some((t / unit + delay) * unit)
  }

  lemma ProductsOrder(x: int, y: int, d: int)
    requires d > 0
    ensures x <= y <==> x * d <= y * d
  {
    assert y * d == x * d + (y - x) * d;
  }

  lemma QuotientGrows(a: int, b: int, k: int, d: int)
    requires d > 0 && b >= (a / d + k) * d
    ensures b / d >= a / d + k
  {
    ProductsOrder(b / d + 1, a / d + k, d);
    assert (b / d + 1) * d == (b / d) * d + d > b;
  }

  lemma QuotientMonotone(a: int, b: int, d: int)
    requires d > 0 && a <= b
    ensures a / d <= b / d
  {
    assert a == (a / d) * d + a % d;
    QuotientGrows(a, b, 0, d);
  }

  lemma EverySteady(cron: Cron, spec: string, unit: nat, delay: nat)
    requires IsEvery(cron, spec, unit, delay)
    ensures Steady(cron, spec)
  {
    forall t ensures t < cron.next(spec, t).value {
      assert t == (t / unit) * unit + t % unit;
      assert (t / unit + delay) * unit >= (t / unit + 1) * unit;
    }
    forall a, b | a <= b ensures cron.next(spec, a).value <= cron.next(spec, b).value {
      QuotientMonotone(a, b, unit);
      assert (a / unit + delay) * unit <= (b / unit + delay) * unit;
    }
  }

  lemma EveryCounts(cron: Cron, spec: string, unit: nat, delay: nat, start: Time)
    requires IsEvery(cron, spec, unit, delay)
    ensures Counts(cron, spec, t requires true => t / unit / delay, start)
  {
    forall a, b | start <= a <= b ensures a / unit / delay <= b / unit / delay {
      QuotientMonotone(a, b, unit);
      QuotientMonotone(a / unit, b / unit, delay);
    }
    forall a, b | start <= a <= b && TickBetween(cron, spec, a, b)
      ensures a / unit / delay + 1 <= b / unit / delay
    {
      QuotientGrows(a, b, delay, unit);
      var x, y := a / unit, b / unit;
      assert y >= x + delay && x == (x / delay) * delay + x % delay;
      assert y >= (x / delay + 1) * delay;
      QuotientGrows(x, y, 1, delay);
    }
  }

  /** A schedule given by a delay: no more scheduled Jobs than periods begun. */
  lemma EveryRate(spec: string, start: Time, steps: seq<Step>, cron: Cron, unit: nat, delay: nat)
    requires IsEvery(cron, spec, unit, delay)
    requires KeepsSchedule(steps, spec) && ValidRun(Initial(spec, start), steps, cron)
    ensures var w := Execute(Initial(spec, start), steps, cron);
            var ts := ScheduledTimes(w.history.created);
            && (forall i :: 0 < i < |ts| ==> ts[i] >= (ts[i - 1] / unit + delay) * unit)
            && |ts| <= w.history.clock / unit / delay - start / unit / delay
  {
    EverySteady(cron, spec, unit, delay);
    EveryCounts(cron, spec, unit, delay, start);
    FallbackRateBound(spec, start, steps, cron, t requires true => t / unit / delay);
  }

  /******* Schedules that never fire again *******/

  /** The schedule has no tick after the last trigger. */
  predicate Exhausted(w: World, cron: Cron) {
    var t := w.mirror.status.lastTriggeredAt;
    w.mirror.schedule != "" && cron.parses(w.mirror.schedule) && t.Some? && cron.next(w.mirror.schedule, t.value).None?
  }

  /** A scheduled sync has just been started from `w`. */
  ghost predicate ScheduledNow(w: World, w1: World, now: Time) {
    var busy := Busy(w1);
    && w1.history.created == w.history.created + [Created(ForSchedule(now), w.mirror.generation, "")]
    && busy && w1.mirror.schedule == w.mirror.schedule && w1.history.clock == now
    && w1.mirror.status.lastTriggeredAt == Some(now)
  }

  lemma ScheduledLaunch(w: World, now: Time)
    requires Shape(w) && Ordered(w) && PushCovered(w) && Dated(w.history)
    requires !Unsettled(w) && !w.mirror.status.pendingResync
    requires Fresh(w, ForSchedule(now)) && w.history.clock == now
    ensures ScheduledNow(w, LaunchScheduled(w, now), now)
  {
    ScheduledLaunchInv(w, now);
  }

  lemma SettleKeeps(w: World, now: Time)
    requires Unsettled(w)
    ensures var w1 := Settle(w, now);
            && w1.history.created == w.history.created && w1.history.clock == w.history.clock
            && w1.mirror.generation == w.mirror.generation && w1.mirror.schedule == w.mirror.schedule
  {}

  /** Seen from a state with the same Jobs created, the launch is the same. */
  lemma ScheduledSame(w: World, w1: World, w2: World, now: Time)
    requires ScheduledNow(w1, w2, now) && w1.history.created == w.history.created
    requires w1.mirror.generation == w.mirror.generation && w1.mirror.schedule == w.mirror.schedule
    ensures ScheduledNow(w, w2, now)
  {}

  lemma SettledLaunch(w: World, now: Time)
    requires Inv(w) && Unsettled(w) && JobFinished(LastJob(w)) && !w.mirror.status.pendingResync
    requires Fresh(w, ForSchedule(now)) && w.history.clock == now
    ensures var started := ScheduledNow(w, LaunchScheduled(Settle(w, now), now), now); started
  {
    SettleInv(w, now);
    SettleKeeps(w, now);
    FreshSame(w, Settle(w, now), ForSchedule(now));
    ScheduledLaunch(Settle(w, now), now);
    ScheduledSame(w, Settle(w, now), LaunchScheduled(Settle(w, now), now), now);
  }

  lemma ExhaustedResult(w: World, cron: Cron, now: Time)
    requires Inv(w) && Exhausted(w, cron) && now > w.history.clock
    requires !Unobserved(w.mirror) && !w.mirror.status.pendingResync && (Unsettled(w) ==> JobFinished(LastJob(w)))
    ensures var started := ScheduledNow(w, ReconcileResult(w, cron, now), now); started
  {
    NewNames(w, now);
    TickInv(w, now);
    if Unsettled(w) {
      FinishedResult(w, cron, now);
      SettledLaunch(Tick(w, now), now);
    } else {
      ScheduledLaunch(Tick(w, now), now);
    }
  }

  /** Then every reconcile of an idle state starts a scheduled sync. */
  lemma ExhaustedReconcile(w: World, order: seq<JobName>, cron: Cron, now: Time)
    requires Inv(w) && Exhausted(w, cron) && IsListing(order, w.jobs) && now > w.history.clock
    requires !Unobserved(w.mirror) && !w.mirror.status.pendingResync && (Unsettled(w) ==> JobFinished(LastJob(w)))
    ensures ScheduledNow(w, Reconcile(w, order, cron, now), now)
  {
    ReconcileIsResult(w, order, cron, now);
    ExhaustedResult(w, cron, now);
  }

  /** The running Job completes and the next reconcile starts another. */
  lemma ExhaustedRound(w: World, cron: Cron) returns (w': World)
    requires Busy(w) && Exhausted(w, cron) && Final(cron, w.mirror.schedule)
    ensures var busy := Busy(w');
            Reaches(w, w', cron) && busy && Exhausted(w', cron) && w'.mirror.schedule == w.mirror.schedule
    ensures w'.history.clock > w.history.clock && cron.next(w.mirror.schedule, w'.history.clock).None?
    ensures ScheduledTimes(w'.history.created) == ScheduledTimes(w.history.created) + [w'.history.clock]
  {
    var now, w1 := w.history.clock + 1, Finished(w);
    ReachesFinished(w, cron);
    assert JobRecorded(w, w.mirror.status.lastJobName.value);
    ExhaustedResult(w1, cron, now);
    ReachesReconcile(w1, cron, now);
    w' := ReconcileResult(w1, cron, now);
    ReachesTrans(w, w1, w', cron);
    ScheduledTimesAppend(w.history.created, Created(ForSchedule(now), w.mirror.generation, ""));
    assert w.mirror.status.lastTriggeredAt.value <= now;
  }

  /** n rounds of an exhausted schedule create n scheduled Jobs. */
  lemma {:induction false} ExhaustedRounds(w: World, cron: Cron, n: nat) returns (w': World)
    requires Busy(w) && Exhausted(w, cron) && Final(cron, w.mirror.schedule)
    ensures Reaches(w, w', cron) && w'.history.clock >= w.history.clock
    ensures |ScheduledTimes(w'.history.created)| == |ScheduledTimes(w.history.created)| + n
    decreases n
  {
    if n == 0 {
      var none: seq<Step> := [];
      assert NoEdits(none) && ValidRun(w, none, cron) && Execute(w, none, cron) == w;
      w' := w;
    } else {
      var w1 := ExhaustedRound(w, cron);
      w' := ExhaustedRounds(w1, cron, n - 1);
      ReachesTrans(w, w1, w', cron);
    }
  }

  lemma {:induction false} NoTicksLeft(tick: Time -> bool, start: Time, t: Time, hi: Time)
    requires start <= t <= hi && forall u :: t < u ==> !tick(u)
    ensures Ticks(tick, start, hi) == Ticks(tick, start, t)
    decreases hi - t
  {
    if t < hi {
      NoTicksLeft(tick, start, t, hi - 1);
    }
  }

  /** The first sync, started at a time after which the schedule does not fire. */
  lemma FirstExhausted(spec: string, start: Time, t: Time, cron: Cron) returns (w: World)
    requires spec != "" && cron.parses(spec) && t > start && cron.next(spec, t).None?
    ensures var busy := Busy(w);
            Reaches(Initial(spec, start), w, cron) && busy && Exhausted(w, cron) && w.mirror.schedule == spec
    ensures w.history.clock == t
  {
    w := ReachesFirstSync(spec, start, cron, t);
  }

  /** A schedule without a tick after some time past the start: some run exceeds the rate. */
  lemma ExhaustedRunsAway(spec: string, start: Time, t: Time, cron: Cron, tick: Time -> bool) returns (steps: seq<Step>)
    requires IsNext(cron, spec, tick) && spec != "" && cron.parses(spec) && t > start && cron.next(spec, t).None?
    ensures NoEdits(steps) && ValidRun(Initial(spec, start), steps, cron)
    ensures !WithinRate(Execute(Initial(spec, start), steps, cron), cron, spec, tick, start)
  {
    var w1 := FirstExhausted(spec, start, t, cron);
    var n := Ticks(tick, start, t) + 1;
    TicksFinal(cron, spec, tick);
    var w2 := ExhaustedRounds(w1, cron, n);
    ReachesTrans(Initial(spec, start), w1, w2, cron);
    assert NextAfter(cron.next(spec, t), tick, t);
    NoTicksLeft(tick, start, t, w2.history.clock);
    steps :| NoEdits(steps) && ValidRun(Initial(spec, start), steps, cron)
             && Execute(Initial(spec, start), steps, cron) == w2;
  }

  /** A schedule that is absent or malformed starts nothing. */
  predicate NeverDue(cron: Cron, spec: string) {
    spec == "" || !cron.parses(spec)
  }

  lemma {:induction false} NeverDueRun(w: World, steps: seq<Step>, cron: Cron, spec: string)
    requires Inv(w) && NeverDue(cron, spec) && w.mirror.schedule == spec && ScheduledTimes(w.history.created) == []
    requires ValidRun(w, steps, cron) && KeepsSchedule(steps, spec)
    ensures ScheduledTimes(Execute(w, steps, cron).history.created) == []
    decreases |steps|
  {
    if steps != [] {
      var s := steps[0];
      StepInv(w, s, cron);
      if s.ReconcileStep? {
        ReconcileIsResult(w, s.order, cron, s.now);
        ReconcileEffect(w, cron, s.now);
        var w1 := ReconcileResult(w, cron, s.now);
        if w1.history.created != w.history.created {
          var x :| w1.history.created == w.history.created + [x] && MayCreate(w, x, cron, s.now);
          ScheduledTimesAppend(w.history.created, x);
        }
      }
      assert KeepsSchedule(steps[1..], spec);
      NeverDueRun(Next(w, s, cron), steps[1..], cron, spec);
    }
  }

  /** All runs keep scheduled Jobs a next time apart. */
  ghost predicate AllSpaced(spec: string, start: Time, cron: Cron) {
    forall steps :: KeepsSchedule(steps, spec) && ValidRun(Initial(spec, start), steps, cron) ==>
      Spaced(cron, spec, ScheduledTimes(Execute(Initial(spec, start), steps, cron).history.created))
  }

  lemma TwoCrowd(ts: seq<Time>, a: Time, b: Time, cron: Cron, spec: string)
    requires cron.next(spec, a).None?
    ensures !Spaced(cron, spec, ts + [a] + [b])
  {
    var all := ts + [a] + [b];
    assert all[|ts|] == a && !TickBetween(cron, spec, all[|ts| + 1 - 1], all[|ts| + 1]);
  }

  /** Two rounds of an exhausted schedule lead to Jobs between which it does not fire. */
  lemma TwoRounds(w: World, spec: string, cron: Cron) returns (w': World)
    requires Busy(w) && Exhausted(w, cron) && Final(cron, spec) && w.mirror.schedule == spec
    ensures Reaches(w, w', cron) && !Spaced(cron, spec, ScheduledTimes(w'.history.created))
  {
    var w1 := ExhaustedRound(w, cron);
    w' := ExhaustedRound(w1, cron);
    ReachesTrans(w, w1, w', cron);
    TwoCrowd(ScheduledTimes(w.history.created), w1.history.clock, w'.history.clock, cron, spec);
  }

  lemma ExhaustedCrowds(spec: string, start: Time, t: Time, cron: Cron) returns (steps: seq<Step>)
    requires Final(cron, spec) && spec != "" && cron.parses(spec) && t > start && cron.next(spec, t).None?
    ensures NoEdits(steps) && ValidRun(Initial(spec, start), steps, cron)
    ensures !Spaced(cron, spec, ScheduledTimes(Execute(Initial(spec, start), steps, cron).history.created))
  {
    var w1 := FirstExhausted(spec, start, t, cron);
    var w2 := TwoRounds(w1, spec, cron);
    ReachesTrans(Initial(spec, start), w1, w2, cron);
    steps :| NoEdits(steps) && ValidRun(Initial(spec, start), steps, cron)
             && Execute(Initial(spec, start), steps, cron) == w2;
  }

  /**
   Exactly for which schedules, of ticks, delays or otherwise, every run keeps its scheduled
   Jobs a next time apart.
   */
  lemma RateBoundExact(spec: string, start: Time, cron: Cron)
    requires Steady(cron, spec) && Final(cron, spec)
    ensures AllSpaced(spec, start, cron) <==> NeverDue(cron, spec) || AlwaysFires(cron, spec, start)
  {
    if !NeverDue(cron, spec) && !AlwaysFires(cron, spec, start) {
      var t :| t > start && cron.next(spec, t).None?;
      var steps := ExhaustedCrowds(spec, start, t, cron);
      assert KeepsSchedule(steps, spec);
    } else {
      forall steps | KeepsSchedule(steps, spec) && ValidRun(Initial(spec, start), steps, cron)
        ensures Spaced(cron, spec, ScheduledTimes(Execute(Initial(spec, start), steps, cron).history.created))
      {
        InitialInv(spec, start);
        if NeverDue(cron, spec) {
          NeverDueRun(Initial(spec, start), steps, cron, spec);
        } else {
          FallbackRateBound(spec, start, steps, cron, t => t);
        }
      }
    }
  }

  /** Of the schedules given by ticks, exactly for which no run starts more Jobs than there are ticks. */
  lemma TickRateExact(spec: string, start: Time, cron: Cron, tick: Time -> bool)
    requires IsNext(cron, spec, tick)
    ensures (forall steps :: KeepsSchedule(steps, spec) && ValidRun(Initial(spec, start), steps, cron) ==>
               WithinRate(Execute(Initial(spec, start), steps, cron), cron, spec, tick, start))
            <==> NeverDue(cron, spec) || AlwaysFires(cron, spec, start)
  {
    if !NeverDue(cron, spec) && !AlwaysFires(cron, spec, start) {
      var t :| t > start && cron.next(spec, t).None?;
      var steps := ExhaustedRunsAway(spec, start, t, cron, tick);
      assert KeepsSchedule(steps, spec);
    } else {
      forall steps | KeepsSchedule(steps, spec) && ValidRun(Initial(spec, start), steps, cron)
        ensures WithinRate(Execute(Initial(spec, start), steps, cron), cron, spec, tick, start)
      {
        InitialInv(spec, start);
        if NeverDue(cron, spec) {
          NeverDueRun(Initial(spec, start), steps, cron, spec);
        } else {
          TickRate(spec, start, steps, cron, tick);
        }
      }
    }
  }
}
