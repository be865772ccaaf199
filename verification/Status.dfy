/**
 The GitMirror object, its status record and the sync Jobs it owns, with the status
 transitions of internal/controller/status.go.

 A `Mirror` is the value of a GitMirror as the API server stores it.  The class `GitMirror`
 is the in-memory copy whose status the transitions overwrite field by field; each method
 is specified by the function of the same meaning on `Mirror` values.
 */
module GitMirrorStatus {
  import opened Base

  type Time = int

  /** Job names are deterministic in the trigger id, so a Job is named by its trigger. */
  datatype JobName =
    | ForGeneration(generation: int)
    | ForDelivery(id: string)
    | ForResync(at: Time)
    | ForSchedule(at: Time)

  /** The generation annotation of a Job: missing (legacy), not a number, or a generation. */
  datatype Annotation = Absent | Malformed | At(generation: int)

  datatype Phase = Running | Complete | Failed(reason: string, message: string)

  /** `serial` is the position of the Job in the order of creation; no code reads it. */
  datatype Job = Job(
    name: JobName,
    annotation: Annotation,
    revision: string,
    phase: Phase,
    deleting: bool,
    serial: nat)

  datatype Condition = Condition(status: bool, generation: int, reason: string)

  datatype Status = Status(
    observedGeneration: int,
    lastWebhookAt: Option<Time>,
    lastDeliveryID: string,
    lastTriggeredAt: Option<Time>,
    lastJobName: Option<JobName>,
    lastCompletedJobName: Option<JobName>,
    lastSuccessAt: Option<Time>,
    lastFailureAt: Option<Time>,
    lastError: string,
    lastRequestedRevision: string,
    lastMirroredRevision: string,
    pendingResync: bool,
    conditions: map<string, Condition>)

  const EMPTY_STATUS :=
    Status(0, None, "", None, None, None, None, None, "", "", "", false, map[])

  datatype Mirror = Mirror(generation: int, schedule: string, status: Status)

  const READY := "Ready"
  const SYNC_PENDING := "SyncPending"

  /******* Job predicates *******/

  predicate JobFinished(job: Job) {
    job.phase != Running
  }

  predicate JobActive(job: Job) {
    !JobFinished(job) && !job.deleting
  }

  predicate GenerationMatches(job: Job, generation: int) {
    match job.annotation
    case Absent => true
    case Malformed => false
    case At(g) => g == generation
  }

  /** The text stored in LastError: reason and message joined, or a default. */
  function FailureText(reason: string, message: string): (text: string)
    ensures text != ""
  {
    if reason == "" && message == "" then "job failed"
    else if reason == "" then message
    else if message == "" then reason
    else reason + ": " + message
  }

  /******* Transitions as functions on Mirror values *******/

  function SetCondition(m: Mirror, kind: string, generation: int, status: bool, reason: string): Mirror {
    m.(status := m.status.(conditions := m.status.conditions[kind := Condition(status, generation, reason)]))
  }

  function WebhookState(m: Mirror, deliveryID: string, now: Time, active: bool): Mirror {
    var st := m.status.(lastWebhookAt := Some(now), lastDeliveryID := deliveryID);
    if active then
      SetCondition(m.(status := st.(pendingResync := true)), SYNC_PENDING, m.generation, true, "ActiveJobExists")
    else
      SetCondition(m.(status := st.(lastTriggeredAt := Some(now), pendingResync := false)),
                   SYNC_PENDING, m.generation, false, "JobScheduled")
  }

  function WebhookIntent(m: Mirror, deliveryID: string, revision: string, now: Time): Mirror {
    var st := m.status.(
      lastWebhookAt := Some(now),
      lastDeliveryID := deliveryID,
      lastRequestedRevision := if revision != "" then revision else m.status.lastRequestedRevision,
      pendingResync := true);
    SetCondition(m.(status := st), SYNC_PENDING, m.generation, true, "WebhookReceived")
  }

  function SyncScheduled(m: Mirror, jobName: JobName, now: Time): Mirror {
    var st := m.status.(
      observedGeneration := m.generation,
      lastTriggeredAt := Some(now),
      lastJobName := Some(jobName),
      pendingResync := false);
    SetCondition(m.(status := st), SYNC_PENDING, m.generation, false, "JobScheduled")
  }

  function SyncScheduledFor(m: Mirror, jobName: JobName, generation: int, now: Time): Mirror {
    if m.generation == generation then SyncScheduled(m, jobName, now) else m
  }

  /** The outcome part of a completion: names, times, error, mirrored revision and Ready. */
  function JobOutcome(m: Mirror, job: Job, now: Time, generation: int): Mirror {
    var st := m.status.(lastJobName := Some(job.name), lastCompletedJobName := Some(job.name));
    match job.phase
    case Running => m.(status := st)
    case Complete =>
      SetCondition(
        m.(status := st.(
             lastSuccessAt := Some(now),
             lastError := "",
             lastMirroredRevision := if job.revision != "" then job.revision else st.lastMirroredRevision)),
        READY, generation, true, "SyncSucceeded")
    case Failed(reason, message) =>
      SetCondition(
        m.(status := st.(lastFailureAt := Some(now), lastError := FailureText(reason, message))),
        READY, generation, false, "SyncFailed")
  }

  /** The pending part: a coalesced push is consumed and a follow-up requested. */
  function ConsumePending(m: Mirror, now: Time): Mirror {
    if m.status.pendingResync then
      SetCondition(m.(status := m.status.(pendingResync := false, lastTriggeredAt := Some(now))),
                   SYNC_PENDING, m.generation, false, "FollowupScheduled")
    else m
  }

  function CompletedFor(m: Mirror, job: Job, generation: int, now: Time): (Mirror, bool) {
    if m.generation != generation then (m, false)
    else
      var m1 := JobOutcome(m.(status := m.status.(observedGeneration := m.generation)), job, now, m.generation);
      (ConsumePending(m1, now), m1.status.pendingResync)
  }

  function CompletedLegacy(m: Mirror, job: Job, now: Time): Mirror {
    JobOutcome(m, job, now, m.status.observedGeneration)
  }

  /** The mutation that reflects a finished Job, with the follow-up it asks for. */
  function Reflected(m: Mirror, job: Job, now: Time): (Mirror, bool) {
    if m.status.lastCompletedJobName == Some(job.name) then (m, false)
    else
      match job.annotation
      case Absent => (CompletedLegacy(m, job, now), false)
      case Malformed => (m, false)
      case At(g) => CompletedFor(m, job, g, now)
  }

  /******* What a status shows of an outcome *******/

  /** Reason and message, those that are given, joined by a colon; some text if neither is. */
  predicate Tells(text: string, reason: string, message: string) {
    && (reason != "" && message != "" ==> text == reason + ": " + message)
    && (reason != "" && message == "" ==> text == reason)
    && (reason == "" && message != "" ==> text == message)
    && text != ""
  }

  predicate ShowsSuccess(st: Status, at: Time, generation: int) {
    && st.lastSuccessAt == Some(at) && st.lastError == ""
    && READY in st.conditions && st.conditions[READY] == Condition(true, generation, "SyncSucceeded")
  }

  predicate ShowsFailure(st: Status, at: Time, generation: int, reason: string, message: string) {
    && st.lastFailureAt == Some(at) && Tells(st.lastError, reason, message)
    && READY in st.conditions && st.conditions[READY] == Condition(false, generation, "SyncFailed")
  }

  /******* The same transitions, in place *******/

  class GitMirror {
    const generation: int
    const schedule: string
    var status: Status

    constructor (m: Mirror)
      ensures Value() == m
    {
      generation, schedule, status := m.generation, m.schedule, m.status;
    }

    function Value(): Mirror
      reads this
    {
      Mirror(generation, schedule, status)
    }

    method SetConditionFor(kind: string, observed: int, value: bool, reason: string)
      modifies this
      ensures Value() == SetCondition(old(Value()), kind, observed, value, reason)
    {
      status := status.(conditions := status.conditions[kind := Condition(value, observed, reason)]);
    }

    method ApplyWebhookState(deliveryID: string, now: Time, activeJobExists: bool) returns (create: bool)
      modifies this
      ensures create == !activeJobExists
      ensures Value() == WebhookState(old(Value()), deliveryID, now, activeJobExists)
      ensures var reason := if activeJobExists then "ActiveJobExists" else "JobScheduled";
              status == old(status).(
                lastWebhookAt := Some(now),
                lastDeliveryID := deliveryID,
                lastTriggeredAt := if activeJobExists then old(status.lastTriggeredAt) else Some(now),
                pendingResync := activeJobExists,
                conditions := old(status.conditions)[SYNC_PENDING := Condition(activeJobExists, generation, reason)])
    {
      status := status.(lastWebhookAt := Some(now));
      status := status.(lastDeliveryID := deliveryID);
      if activeJobExists {
        status := status.(pendingResync := true);
        SetConditionFor(SYNC_PENDING, generation, true, "ActiveJobExists");
        return false;
      }
      status := status.(lastTriggeredAt := Some(now));
      status := status.(pendingResync := false);
      SetConditionFor(SYNC_PENDING, generation, false, "JobScheduled");
      return true;
    }

    method ApplyWebhookIntent(deliveryID: string, revision: string, now: Time)
      modifies this
      ensures Value() == WebhookIntent(old(Value()), deliveryID, revision, now)
      ensures status == old(status).(
                lastWebhookAt := Some(now),
                lastDeliveryID := deliveryID,
                lastRequestedRevision := if revision == "" then old(status.lastRequestedRevision) else revision,
                pendingResync := true,
                conditions := old(status.conditions)[SYNC_PENDING := Condition(true, generation, "WebhookReceived")])
    {
      status := status.(lastWebhookAt := Some(now));
      status := status.(lastDeliveryID := deliveryID);
      if revision != "" {
        status := status.(lastRequestedRevision := revision);
      }
      status := status.(pendingResync := true);
      SetConditionFor(SYNC_PENDING, generation, true, "WebhookReceived");
    }

    method ApplySyncScheduled(jobName: JobName, now: Time)
      modifies this
      ensures Value() == SyncScheduled(old(Value()), jobName, now)
      ensures status == old(status).(
                observedGeneration := generation,
                lastTriggeredAt := Some(now),
                lastJobName := Some(jobName),
                pendingResync := false,
                conditions := old(status.conditions)[SYNC_PENDING := Condition(false, generation, "JobScheduled")])
    {
      status := status.(observedGeneration := generation);
      status := status.(lastTriggeredAt := Some(now));
      status := status.(lastJobName := Some(jobName));
      status := status.(pendingResync := false);
      SetConditionFor(SYNC_PENDING, generation, false, "JobScheduled");
    }

    method ApplySyncScheduledForGeneration(jobName: JobName, wanted: int, now: Time) returns (applied: bool)
      modifies this
      ensures applied == (generation == wanted)
      ensures if applied then status.lastJobName == Some(jobName) else status == old(status)
      ensures Value() == SyncScheduledFor(old(Value()), jobName, wanted, now)
    {
      if generation != wanted {
        return false;
      }
      ApplySyncScheduled(jobName, now);
      return true;
    }

    method ApplyOutcome(job: Job, now: Time, updatePending: bool, observed: int) returns (followup: bool)
      modifies this
      ensures followup == (updatePending && old(status.pendingResync))
      ensures Value() ==
              var m := JobOutcome(old(Value()), job, now, observed);
              if updatePending then ConsumePending(m, now) else m
      ensures status.lastJobName == status.lastCompletedJobName == Some(job.name)
      ensures job.phase == Complete ==>
                && ShowsSuccess(status, now, observed)
                && status.lastFailureAt == old(status.lastFailureAt)
                && status.lastMirroredRevision ==
                   (if job.revision == "" then old(status.lastMirroredRevision) else job.revision)
      ensures job.phase.Failed? ==>
                && ShowsFailure(status, now, observed, job.phase.reason, job.phase.message)
                && status.lastSuccessAt == old(status.lastSuccessAt)
                && status.lastMirroredRevision == old(status.lastMirroredRevision)
      ensures status.pendingResync == (old(status.pendingResync) && !updatePending)
      ensures status.lastTriggeredAt == if followup then Some(now) else old(status.lastTriggeredAt)
      ensures followup ==> status.conditions[SYNC_PENDING] == Condition(false, generation, "FollowupScheduled")
    {
      status := status.(lastJobName := Some(job.name));
      status := status.(lastCompletedJobName := Some(job.name));
      match job.phase {
        case Running =>
        case Complete =>
          status := status.(lastSuccessAt := Some(now));
          status := status.(lastError := "");
          if job.revision != "" {
            status := status.(lastMirroredRevision := job.revision);
          }
          SetConditionFor(READY, observed, true, "SyncSucceeded");
        case Failed(reason, message) =>
          status := status.(lastFailureAt := Some(now));
          status := status.(lastError := FailureText(reason, message));
          SetConditionFor(READY, observed, false, "SyncFailed");
      }
      if !updatePending {
        return false;
      }
      followup := status.pendingResync;
      if followup {
        status := status.(pendingResync := false);
        status := status.(lastTriggeredAt := Some(now));
        SetConditionFor(SYNC_PENDING, generation, false, "FollowupScheduled");
      }
    }

    method ApplyCompletedJobStatusForGeneration(job: Job, wanted: int, now: Time) returns (followup: bool)
      modifies this
      ensures (Value(), followup) == CompletedFor(old(Value()), job, wanted, now)
      ensures generation != wanted ==> status == old(status) && !followup
      ensures generation == wanted ==>
                && status.observedGeneration == generation
                && status.lastCompletedJobName == Some(job.name)
                && (job.phase == Complete ==> ShowsSuccess(status, now, generation))
                && (job.phase.Failed? ==> ShowsFailure(status, now, generation, job.phase.reason, job.phase.message))
                && !status.pendingResync && followup == old(status.pendingResync)
    {
      if generation != wanted {
        return false;
      }
      status := status.(observedGeneration := generation);
      followup := ApplyOutcome(job, now, true, generation);
    }

    method ApplyCompletedLegacyJobStatus(job: Job, now: Time) returns (followup: bool)
      modifies this
      ensures !followup
      ensures Value() == CompletedLegacy(old(Value()), job, now)
      ensures job.phase == Complete ==> ShowsSuccess(status, now, old(status.observedGeneration))
      ensures job.phase.Failed? ==>
                ShowsFailure(status, now, old(status.observedGeneration), job.phase.reason, job.phase.message)
      ensures status.pendingResync == old(status.pendingResync)
      ensures status.observedGeneration == old(status.observedGeneration)
    {
      followup := ApplyOutcome(job, now, false, status.observedGeneration);
    }
  }
}
