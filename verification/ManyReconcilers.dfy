/**
 Any number of reconcilers at one generation, each acting on a Job list it may have read long
 ago.  If taking the lease and creating the Job is one step, and releasing is one step, then
 from every safe state, whatever Jobs of this and older generations it holds, at most one Job
 of the current generation is active in every state of every run.
 */
module ManyReconcilers {
  import opened Base
  import opened GitMirrorStatus
  import opened Scheduling
  import opened Invariants
  import opened Exclusion
  import SmallStep

  /** The cluster, and for each reconciler the Job list it last read. */
  datatype Pool = Pool(w: World, seen: map<nat, seq<Job>>)

  datatype Move =
    | Observe(who: nat, order: seq<JobName>)
    | CreateLockedJob(who: nat, name: JobName, revision: string)
    | CreateRefused(who: nat, name: JobName)
    | ReleaseFinished(who: nat, index: nat)
    | StorePatch(who: nat, status: Status)
    | FinishOne(name: JobName, phase: Phase)
    | TerminateOne(name: JobName)
    | RemoveOne(name: JobName)

  /** Names are not reused after removal; a release names a Job the reconciler saw finished. */
  predicate Enabled(p: Pool, move: Move) {
    match move
    case Observe(_, order) => IsListing(order, p.w.jobs)
    case CreateLockedJob(_, n, _) => n in p.w.jobs || Fresh(p.w, n)
    case CreateRefused(_, n) => n !in p.w.jobs
    case ReleaseFinished(r, k) => r in p.seen && k < |p.seen[r]| && JobFinished(p.seen[r][k])
    case StorePatch(_, _) => true
    case FinishOne(n, phase) => n in p.w.jobs && p.w.jobs[n].phase == Running && phase != Running
    case TerminateOne(n) => n in p.w.jobs
    case RemoveOne(n) => n in p.w.jobs
  }

  function Next(p: Pool, move: Move): Pool
    requires Enabled(p, move)
  {
    var g := p.w.mirror.generation;
    match move
    case Observe(r, order) => p.(seen := p.seen[r := Listed(order, p.w.jobs)])
    case CreateLockedJob(_, n, revision) => p.(w := CreateLocked(p.w, g, n, revision).1)
    case CreateRefused(_, n) =>
      var (acquired, w1) := Acquire(p.w, g, n);
      p.(w := if acquired then Release(w1, n) else w1)
    case ReleaseFinished(r, k) => p.(w := Release(p.w, p.seen[r][k].name))
    case StorePatch(_, status) => p.(w := p.w.(mirror := p.w.mirror.(status := status)))
    case FinishOne(n, phase) => p.(w := FinishJob(p.w, n, phase))
    case TerminateOne(n) => p.(w := p.w.(jobs := p.w.jobs[n := p.w.jobs[n].(deleting := true)]))
    case RemoveOne(n) => p.(w := RemoveJob(p.w, n))
  }

  predicate ValidRun(p: Pool, moves: seq<Move>)
    decreases |moves|
  {
    moves == [] || (Enabled(p, moves[0]) && ValidRun(Next(p, moves[0]), moves[1..]))
  }

  function Execute(p: Pool, moves: seq<Move>): Pool
    requires ValidRun(p, moves)
    decreases |moves|
  {
    if moves == [] then p else Execute(Next(p, moves[0]), moves[1..])
  }

  /** Safety of the cluster, and of every list: what it shows finished never runs again. */
  ghost predicate PoolSafe(p: Pool) {
    && Safe(p.w)
    && (forall r, k :: r in p.seen && 0 <= k < |p.seen[r]| && JobFinished(p.seen[r][k]) ==>
          Spent(p.w, p.seen[r][k].name))
  }

  lemma CreateMove(w: World, n: JobName, revision: string)
    requires Safe(w) && (n in w.jobs || Fresh(w, n))
    ensures var w1 := CreateLocked(w, w.mirror.generation, n, revision).1;
            Safe(w1) && forall k :: Spent(w, k) ==> Spent(w1, k)
  {
    var g := w.mirror.generation;
    var (acquired, w0) := Acquire(w, g, n);
    if acquired {
      assert forall k :: k in w.jobs ==> Annotated(w, k);
      assert forall k :: ActiveNow(w, k) ==> k == n;
      LeaseFrame(w, w0);
      CreateFrame(w0, g, n, revision);
    }
  }

  /** The environment's moves only make Jobs less active. */
  lemma QuietMove(w: World, w1: World)
    requires Safe(w) && w1 == w.(jobs := w1.jobs)
    requires forall n :: n in w1.jobs ==>
               n in w.jobs && w1.jobs[n].name == w.jobs[n].name && w1.jobs[n].annotation == w.jobs[n].annotation
               && (JobActive(w1.jobs[n]) ==> JobActive(w.jobs[n]))
    ensures Safe(w1) && forall k :: Spent(w, k) ==> Spent(w1, k)
  {}

  lemma ReleaseMove(p: Pool, r: nat, k: nat)
    requires PoolSafe(p) && Enabled(p, ReleaseFinished(r, k))
    ensures PoolSafe(Next(p, ReleaseFinished(r, k)))
  {}

  lemma ObserveMove(p: Pool, r: nat, order: seq<JobName>)
    requires PoolSafe(p) && Enabled(p, Observe(r, order))
    ensures PoolSafe(Next(p, Observe(r, order)))
  {}

  lemma MoveSafe(p: Pool, move: Move)
    requires PoolSafe(p) && Enabled(p, move)
    ensures PoolSafe(Next(p, move))
  {
    var w, w' := p.w, Next(p, move).w;
    match move
    case Observe(r, order) => ObserveMove(p, r, order);
    case CreateLockedJob(_, n, revision) => CreateMove(w, n, revision);
    case CreateRefused(_, n) =>
      assert forall k :: k in w.jobs ==> Annotated(w, k);
      LeaseFrame(w, w');
    case ReleaseFinished(r, k) => ReleaseMove(p, r, k);
    case StorePatch(_, _) => StatusFrame(w, w');
    case FinishOne(n, phase) => QuietMove(w, w');
    case TerminateOne(n) => QuietMove(w, w');
    case RemoveOne(n) => QuietMove(w, w');
  }

  lemma {:induction false} RunSafe(p: Pool, moves: seq<Move>)
    requires PoolSafe(p) && ValidRun(p, moves)
    ensures PoolSafe(Execute(p, moves))
    decreases |moves|
  {
    if moves != [] {
      MoveSafe(p, moves[0]);
      RunSafe(Next(p, moves[0]), moves[1..]);
    }
  }

  /** Many-reconciler exclusion, from every safe pool. */
  lemma ManyReconcilersExclude(p: Pool, moves: seq<Move>, m: JobName, n: JobName)
    requires PoolSafe(p) && ValidRun(p, moves)
    requires ActiveNow(Execute(p, moves).w, m) && ActiveNow(Execute(p, moves).w, n)
    ensures m == n && Execute(p, moves).w.lease == Held(Some(m))
  {
    RunSafe(p, moves);
  }

  /** A new cluster is such a pool, and so is any state a serialised run of one reconciler leaves. */
  lemma SafePools(schedule: string, clock: Time, acts: seq<SmallStep.Act>, cron: Cron)
    requires SerialRun(Start(schedule, clock), acts, cron)
    ensures SmallStep.ValidRun(Start(schedule, clock), acts, cron)
    ensures PoolSafe(Pool(SmallStep.Execute(Start(schedule, clock), acts, cron).w, map[]))
  {
    SerialHeld(Start(schedule, clock), acts, cron);
    SerialClean(Start(schedule, clock), acts, cron);
    RunGood(Start(schedule, clock), acts, cron);
  }
}
