/**
 * The records the job monitor works on (src/services/monitoring/job_monitor.py):
 * job-stream snapshots from the scheduler, the status-change event built from a
 * snapshot, the alert rule, and the messages published on the event bus.
 */
module JobModel {
  import opened Common

  /** A point in time, as read from the clock when an event is built. */
  type Timestamp = int

  /**
   * One job-stream record returned by the scheduler's plan query. Each field is
   * `None` when the record has no such key; the key names are `jobStreamName`,
   * `status`, `id` and `workstationName`.
   */
  datatype Job = Job(
    name: Option<string>,
    status: Option<string>,
    id: Option<string>,
    workstation: Option<string>)

  /** The record has a truthy `jobStreamName` (present and not the empty string). */
  predicate Named(j: Job)
  {
    j.name.Some? && j.name.value != ""
  }

  /** The record has the truthy `jobStreamName` `k`. */
  predicate NamedAs(j: Job, k: string)
  {
    Named(j) && j.name.value == k
  }

  /** `JobStatusEvent`: one observed status transition of one job. */
  datatype JobStatusEvent = JobStatusEvent(
    jobId: string,
    jobName: string,
    oldStatus: string,
    newStatus: string,
    workstation: string,
    timestamp: Timestamp,
    duration: Option<int>,
    errorMessage: Option<string>)

  /** Old status of a job that had no snapshot before. */
  const NewStatus := "NEW"
  /** New status of a snapshot without a `status` key. */
  const UnknownStatus := "UNKNOWN"

  /**
   * `_process_job_update`: the event for snapshot `job`, given the snapshot
   * cached for the same job before (`None` for a job seen for the first time).
   */
  function MakeEvent(job: Job, previous: Option<Job>, ts: Timestamp): JobStatusEvent
    requires Named(job)
  {
    JobStatusEvent(
      GetOr(job.id, job.name.value),
      job.name.value,
      if previous.Some? then GetOr(previous.value.status, NewStatus) else NewStatus,
      GetOr(job.status, UnknownStatus),
      GetOr(job.workstation, ""),
      ts,
      None,
      None)
  }

  /** The defaults an event falls back on when the snapshots lack a field. */
  lemma EventDefaults(job: Job, previous: Option<Job>, ts: Timestamp)
    requires Named(job)
    ensures MakeEvent(job, previous, ts).jobName == job.name.value
    ensures job.id.None? ==> MakeEvent(job, previous, ts).jobId == job.name.value
    ensures job.id.Some? ==> MakeEvent(job, previous, ts).jobId == job.id.value
    ensures job.status.None? ==> MakeEvent(job, previous, ts).newStatus == UnknownStatus
    ensures job.status.Some? ==> MakeEvent(job, previous, ts).newStatus == job.status.value
    ensures job.workstation.None? ==> MakeEvent(job, previous, ts).workstation == ""
    ensures (previous.None? || previous.value.status.None?) ==> MakeEvent(job, previous, ts).oldStatus == NewStatus
    ensures previous.Some? && previous.value.status.Some? ==>
              MakeEvent(job, previous, ts).oldStatus == previous.value.status.value
    ensures MakeEvent(job, previous, ts).duration.None? && MakeEvent(job, previous, ts).errorMessage.None?
  {
  }

  /** The `data` part of an `alert_notification` message. */
  datatype Alert = Alert(
    severity: string,
    title: string,
    jobName: string,
    status: string,
    workstation: string,
    timestamp: Timestamp)
  {
    /** The `message` field: the human-readable text, a function of the other fields. */
    function Message(): string
    {
      "Job '" + jobName + "' on workstation '" + workstation + "' failed with status: " + status + "."
    }
  }

  /** `_check_alert_rules`: the alert for an event, if any. */
  function AlertFor(e: JobStatusEvent, critical: set<string>): Option<Alert>
  {
    if e.newStatus in critical && e.oldStatus !in critical then
      Some(Alert("HIGH", "Job Failure", e.jobName, e.newStatus, e.workstation, e.timestamp))
    else
      None
  }

  /**
   * The alert rule is edge-triggered: an alert is raised exactly when the job
   * crosses into the critical set, with severity "HIGH" and the event's job,
   * status, workstation and time. Statuses are compared exactly, without case
   * folding.
   */
  lemma AlertRule(e: JobStatusEvent, critical: set<string>)
    ensures var r := AlertFor(e, critical);
            && (r.Some? <==> e.newStatus in critical && e.oldStatus !in critical)
            && (r.Some? ==> r.value.severity == "HIGH" && r.value.title == "Job Failure")
            && (r.Some? ==> r.value.jobName == e.jobName && r.value.status == e.newStatus)
            && (r.Some? ==> r.value.workstation == e.workstation && r.value.timestamp == e.timestamp)
  {
  }

  /** The part of the JOB_A alert text up to the workstation name. */
  lemma AbendAlertHead()
    ensures "Job '" + "JOB_A" + "' on workstation '" + "CPU1" == "Job 'JOB_A' on workstation 'CPU1"
  {
    assert "Job '" + "JOB_A" == "Job 'JOB_A";
    assert "Job 'JOB_A" + "' on workstation '" == "Job 'JOB_A' on workstation '";
    assert "Job 'JOB_A' on workstation '" + "CPU1" == "Job 'JOB_A' on workstation 'CPU1";
  }

  /** The text of the alert for JOB_A failing with ABEND on CPU1. */
  lemma AbendAlertMessage(ts: Timestamp)
    ensures Alert("HIGH", "Job Failure", "JOB_A", "ABEND", "CPU1", ts).Message()
            == "Job 'JOB_A' on workstation 'CPU1' failed with status: ABEND."
  {
    AbendAlertHead();
    assert "Job 'JOB_A' on workstation 'CPU1" + "' failed with status: " == "Job 'JOB_A' on workstation 'CPU1' failed with status: ";
    assert "Job 'JOB_A' on workstation 'CPU1' failed with status: " + "ABEND" == "Job 'JOB_A' on workstation 'CPU1' failed with status: ABEND";
    assert "Job 'JOB_A' on workstation 'CPU1' failed with status: ABEND" + "." == "Job 'JOB_A' on workstation 'CPU1' failed with status: ABEND.";
  }

  /** A job that stays critical, even moving to another critical status, is not alerted again. */
  lemma CriticalToCriticalNoAlert(e: JobStatusEvent, critical: set<string>)
    requires e.oldStatus in critical && e.newStatus in critical
    ensures AlertFor(e, critical).None?
  {
  }

  /** A job first seen already critical is alerted, as long as "NEW" is not itself critical. */
  lemma NewToCriticalAlerts(job: Job, ts: Timestamp, critical: set<string>)
    requires Named(job) && job.status.Some? && job.status.value in critical
    requires NewStatus !in critical
    ensures AlertFor(MakeEvent(job, None, ts), critical).Some?
    ensures AlertFor(MakeEvent(job, None, ts), critical).value.status == job.status.value
  {
  }

  /** The message envelopes: `{"type": "job_status_update", ...}` and `{"type": "alert_notification", ...}`. */
  datatype Envelope = JobStatusUpdate(event: JobStatusEvent) | AlertNotification(alert: Alert)

  const JobUpdatesChannel := "job_updates"
  const AlertChannel := "alert_notifications"

  /** One `publish(channel, json.dumps(envelope))` on the event bus. */
  datatype Publication = Publication(channel: string, envelope: Envelope)

  /** The channel each kind of envelope goes to. */
  function ChannelOf(env: Envelope): string
  {
    if env.JobStatusUpdate? then JobUpdatesChannel else AlertChannel
  }

  /** `_send_alert` for the alert `AlertFor` yields, when a Redis client is set. */
  function AlertPublications(e: JobStatusEvent, critical: set<string>, hasRedis: bool): seq<Publication>
  {
    var alert := AlertFor(e, critical);
    if hasRedis && alert.Some? then [Publication(AlertChannel, AlertNotification(alert.value))] else []
  }

  /** `_publish_realtime_update`, when a Redis client is set. */
  function UpdatePublications(e: JobStatusEvent, hasRedis: bool): seq<Publication>
  {
    if hasRedis then [Publication(JobUpdatesChannel, JobStatusUpdate(e))] else []
  }

  /**
   * What `_handle_status_change` would publish for one event if no publish
   * raised: the alert (if any) first, then the realtime update.
   */
  function Publications(e: JobStatusEvent, critical: set<string>, hasRedis: bool): (r: seq<Publication>)
    ensures !hasRedis ==> r == []
    ensures hasRedis ==> |r| == (if AlertFor(e, critical).Some? then 2 else 1)
    ensures hasRedis ==> r[|r| - 1] == Publication(JobUpdatesChannel, JobStatusUpdate(e))
    ensures |r| == 2 ==> r[0].envelope == AlertNotification(AlertFor(e, critical).value)
    ensures forall i :: 0 <= i < |r| ==> r[i].channel == ChannelOf(r[i].envelope)
  {
    AlertPublications(e, critical, hasRedis) + UpdatePublications(e, hasRedis)
  }

  /**
   * The outcome of `_handle_status_change` for one event: the history rows
   * stored, the messages published, and whether it returned normally. A failed
   * history write is swallowed; a publish that raises ends the handler there
   * and propagates.
   */
  datatype Handled = Handled(stored: seq<JobStatusEvent>, sent: seq<Publication>, ok: bool)

  function HandleOutcome(e: JobStatusEvent, critical: set<string>, hasRedis: bool,
                         storeOk: JobStatusEvent -> bool, publishOk: Publication -> bool): Handled
  {
    var stored := if storeOk(e) then [e] else [];
    var alerts := AlertPublications(e, critical, hasRedis);
    var updates := UpdatePublications(e, hasRedis);
    if alerts != [] && !publishOk(alerts[0]) then
      Handled(stored, [], false)
    else if updates != [] && !publishOk(updates[0]) then
      Handled(stored, alerts, false)
    else
      Handled(stored, alerts + updates, true)
  }

  /**
   * A handled event stores itself iff the store succeeds, publishes the
   * publications before the first failing one, and returns normally iff every
   * one of them succeeds.
   */
  lemma HandleOutcomeSpec(e: JobStatusEvent, critical: set<string>, hasRedis: bool,
                          storeOk: JobStatusEvent -> bool, publishOk: Publication -> bool)
    ensures var h := HandleOutcome(e, critical, hasRedis, storeOk, publishOk);
            var ps := Publications(e, critical, hasRedis);
            && h.stored == (if storeOk(e) then [e] else [])
            && h.sent <= ps
            && (h.ok <==> forall i :: 0 <= i < |ps| ==> publishOk(ps[i]))
            && (forall i :: 0 <= i < |h.sent| ==> publishOk(ps[i]))
            && (h.ok ==> h.sent == ps)
            && (!h.ok ==> |h.sent| < |ps| && !publishOk(ps[|h.sent|]))
  {
  }
}
