/**
 * `JobMonitoringService` (src/services/monitoring/job_monitor.py): the poller
 * that owns the job cache, turns each successful query into status-change
 * events, stores them, raises alerts and publishes realtime updates.
 *
 * The scheduler query is an abstract outcome; the clock, the history store and
 * the Redis publishes are oracles passed in; the history table and the bus are
 * ghost logs appended in order.
 */
module JobMonitor {
  import opened Common
  import opened JobModel
  import opened JobDiff

  /** The result of `client.plan.query_job_streams()`: any exception, or the list of records. */
  datatype QueryOutcome = QueryFailed | QueryOk(jobs: seq<Job>)

  /** The events built for `changes`, the `i`-th stamped with the `i`-th clock reading of the cycle. */
  function EventsOf(changes: seq<Change>, clock: nat -> Timestamp): (es: seq<JobStatusEvent>)
    requires forall i :: 0 <= i < |changes| ==> Named(changes[i].job)
    ensures |es| == |changes|
  {
    if changes == [] then []
    else
      var n := |changes| - 1;
      EventsOf(changes[..n], clock) + [MakeEvent(changes[n].job, changes[n].previous, clock(n))]
  }

  /** How `_handle_status_change` goes for each event, under the given store and publish outcomes. */
  function Handler(critical: set<string>, hasRedis: bool,
                   storeOk: JobStatusEvent -> bool, publishOk: Publication -> bool): JobStatusEvent -> Handled
  {
    e => HandleOutcome(e, critical, hasRedis, storeOk, publishOk)
  }

  /**
   * `handle` handles every event as `_handle_status_change` does. The equation
   * is only instantiated where a `HandleOutcome` term is already present, so a
   * proof that treats `handle` as opaque never unfolds it.
   */
  ghost predicate Implements(handle: JobStatusEvent -> Handled, critical: set<string>, hasRedis: bool,
                             storeOk: JobStatusEvent -> bool, publishOk: Publication -> bool)
  {
    forall e {:trigger HandleOutcome(e, critical, hasRedis, storeOk, publishOk)} ::
      handle(e) == HandleOutcome(e, critical, hasRedis, storeOk, publishOk)
  }

  lemma HandlerImplements(critical: set<string>, hasRedis: bool,
                          storeOk: JobStatusEvent -> bool, publishOk: Publication -> bool)
    ensures Implements(Handler(critical, hasRedis, storeOk, publishOk), critical, hasRedis, storeOk, publishOk)
  {
  }

  /** The history rows whose writes succeed among `events`, in order. */
  function HistoryLog(events: seq<JobStatusEvent>, storeOk: JobStatusEvent -> bool): (r: seq<JobStatusEvent>)
    ensures |r| <= |events|
  {
    if events == [] then []
    else
      var last := events[|events| - 1];
      HistoryLog(events[..|events| - 1], storeOk) + (if storeOk(last) then [last] else [])
  }

  /** The history rows written while handling `events` one after the other. */
  function StoredLog(events: seq<JobStatusEvent>, handle: JobStatusEvent -> Handled): seq<JobStatusEvent>
  {
    if events == [] then []
    else StoredLog(events[..|events| - 1], handle) + handle(events[|events| - 1]).stored
  }

  /** The messages published while handling `events` one after the other. */
  function SentLog(events: seq<JobStatusEvent>, handle: JobStatusEvent -> Handled): seq<Publication>
  {
    if events == [] then []
    else SentLog(events[..|events| - 1], handle) + handle(events[|events| - 1]).sent
  }

  /** No publish raised while handling any of `events`. */
  ghost predicate AllHandled(events: seq<JobStatusEvent>, handle: JobStatusEvent -> Handled)
  {
    forall i :: 0 <= i < |events| ==> handle(events[i]).ok
  }

  /** Handling a run of events writes exactly the rows of the events whose store succeeds. */
  lemma {:induction false} StoredLogIsHistory(events: seq<JobStatusEvent>, critical: set<string>, hasRedis: bool,
                                              storeOk: JobStatusEvent -> bool, publishOk: Publication -> bool)
    ensures StoredLog(events, Handler(critical, hasRedis, storeOk, publishOk)) == HistoryLog(events, storeOk)
  {
    if events != [] {
      var n := |events| - 1;
      StoredLogIsHistory(events[..n], critical, hasRedis, storeOk, publishOk);
      HandleOutcomeSpec(events[n], critical, hasRedis, storeOk, publishOk);
    }
  }

  /**
   * What a stretch of the poll loop did: the events it built, the history rows
   * and the messages it wrote, and whether a publish raised.
   */
  datatype Trace = Trace(events: seq<JobStatusEvent>, stored: seq<JobStatusEvent>, sent: seq<Publication>, raised: bool)

  const Idle := Trace([], [], [], false)

  /** One loop pass for the name `name`: nothing for an unchanged job, otherwise its event, handled. */
  function Visit(cache: map<string, Job>, current: map<string, Job>, name: string, ts: Timestamp,
                 handle: JobStatusEvent -> Handled): Trace
    requires name in current && KeyedByName(current)
  {
    var step := ChangeFor(cache, current, name);
    if step == [] then Idle
    else
      var e := MakeEvent(step[0].job, step[0].previous, ts);
      var h := handle(e);
      Trace([e], h.stored, h.sent, !h.ok)
  }

  /**
   * The poll loop over the names `keys` of `current`: visit them in order, the
   * `i`-th event stamped with the `i`-th clock reading, and stop after the first
   * visit whose handling raised.
   */
  function Run(cache: map<string, Job>, current: map<string, Job>, keys: seq<string>, clock: nat -> Timestamp,
               handle: JobStatusEvent -> Handled): Trace
    requires forall i :: 0 <= i < |keys| ==> keys[i] in current
    requires KeyedByName(current)
  {
    if keys == [] then Idle
    else
      var t := Run(cache, current, keys[..|keys| - 1], clock, handle);
      if t.raised then t
      else
        var v := Visit(cache, current, keys[|keys| - 1], clock(|t.events|), handle);
        Trace(t.events + v.events, t.stored + v.stored, t.sent + v.sent, v.raised)
  }

  /** The loop over `keys[..i + 1]` is the loop over `keys[..i]` followed, unless it raised, by the visit of `keys[i]`. */
  lemma RunStep(cache: map<string, Job>, current: map<string, Job>, keys: seq<string>, i: nat,
                clock: nat -> Timestamp, handle: JobStatusEvent -> Handled)
    requires forall j :: 0 <= j < |keys| ==> keys[j] in current
    requires KeyedByName(current)
    requires i < |keys|
    ensures var t := Run(cache, current, keys[..i], clock, handle);
            var v := Visit(cache, current, keys[i], clock(|t.events|), handle);
            Run(cache, current, keys[..i + 1], clock, handle)
            == if t.raised then t else Trace(t.events + v.events, t.stored + v.stored, t.sent + v.sent, v.raised)
  {
    assert keys[..i + 1][..i] == keys[..i];
  }

  /** Once a visit raised, the loop is over: later names change nothing. */
  lemma {:induction false} RunStopsAtRaise(cache: map<string, Job>, current: map<string, Job>, keys: seq<string>, n: nat,
                                           clock: nat -> Timestamp, handle: JobStatusEvent -> Handled)
    requires forall i :: 0 <= i < |keys| ==> keys[i] in current
    requires KeyedByName(current)
    requires n <= |keys|
    requires Run(cache, current, keys[..n], clock, handle).raised
    ensures Run(cache, current, keys, clock, handle) == Run(cache, current, keys[..n], clock, handle)
    decreases |keys| - n
  {
    if n < |keys| {
      var m := |keys| - 1;
      assert keys[..m][..n] == keys[..n];
      RunStopsAtRaise(cache, current, keys[..m], n, clock, handle);
    } else {
      assert keys[..n] == keys;
    }
  }

  /** The events of one visit: the event of the name's change, if it has one. */
  lemma VisitEvents(cache: map<string, Job>, current: map<string, Job>, name: string, ts: Timestamp,
                    handle: JobStatusEvent -> Handled)
    requires name in current && KeyedByName(current)
    ensures var step := ChangeFor(cache, current, name);
            && |step| <= 1
            && (forall i :: 0 <= i < |step| ==> Named(step[i].job))
            && Visit(cache, current, name, ts, handle).events
               == if step == [] then [] else [MakeEvent(step[0].job, step[0].previous, ts)]
  {
  }

  /** The events of changes extended by at most one change. */
  lemma EventsOfStep(changes: seq<Change>, step: seq<Change>, clock: nat -> Timestamp)
    requires forall i :: 0 <= i < |changes| ==> Named(changes[i].job)
    requires |step| <= 1 && forall i :: 0 <= i < |step| ==> Named(step[i].job)
    ensures EventsOf(changes + step, clock)
            == EventsOf(changes, clock) + if step == [] then [] else [MakeEvent(step[0].job, step[0].previous, clock(|changes|))]
  {
    if step != [] {
      assert step == [step[0]];
      EventsOfAppend(changes, step[0], clock);
    } else {
      assert changes + step == changes;
    }
  }

  /**
   * If the loop over all names but the last did not raise and built the events
   * of the changes found so far, the loop over all names builds those of all
   * the changes, raised or not.
   */
  lemma RunEventsStep(cache: map<string, Job>, current: map<string, Job>, keys: seq<string>,
                      clock: nat -> Timestamp, handle: JobStatusEvent -> Handled)
    requires forall i :: 0 <= i < |keys| ==> keys[i] in current
    requires KeyedByName(current)
    requires keys != []
    requires var t := Run(cache, current, keys[..|keys| - 1], clock, handle);
             !t.raised && t.events == EventsOf(DiffKeys(cache, current, keys[..|keys| - 1]), clock)
    ensures Run(cache, current, keys, clock, handle).events == EventsOf(DiffKeys(cache, current, keys), clock)
  {
    var m := |keys| - 1;
    var t := Run(cache, current, keys[..m], clock, handle);
    var changes := DiffKeys(cache, current, keys[..m]);
    var step := ChangeFor(cache, current, keys[m]);
    VisitEvents(cache, current, keys[m], clock(|t.events|), handle);
    EventsOfStep(changes, step, clock);
  }

  /** When no publish raised, the loop built the events of all the changes `DiffKeys` finds, in order. */
  lemma {:induction false} RunBuildsAllDiffEvents(cache: map<string, Job>, current: map<string, Job>, keys: seq<string>,
                                                  clock: nat -> Timestamp, handle: JobStatusEvent -> Handled)
    requires forall i :: 0 <= i < |keys| ==> keys[i] in current
    requires KeyedByName(current)
    ensures var t := Run(cache, current, keys, clock, handle);
            !t.raised ==> t.events == EventsOf(DiffKeys(cache, current, keys), clock)
  {
    if keys != [] {
      var m := |keys| - 1;
      RunBuildsAllDiffEvents(cache, current, keys[..m], clock, handle);
      if !Run(cache, current, keys[..m], clock, handle).raised {
        RunEventsStep(cache, current, keys, clock, handle);
      } else {
        RunStopsAtRaise(cache, current, keys, m, clock, handle);
      }
    }
  }

  /** Visiting one more name only extends the events of the changes found. */
  lemma DiffEventsGrow(cache: map<string, Job>, current: map<string, Job>, keys: seq<string>, clock: nat -> Timestamp)
    requires forall i :: 0 <= i < |keys| ==> keys[i] in current
    requires KeyedByName(current)
    requires keys != []
    ensures EventsOf(DiffKeys(cache, current, keys[..|keys| - 1]), clock) <= EventsOf(DiffKeys(cache, current, keys), clock)
  {
    var m := |keys| - 1;
    var changes := DiffKeys(cache, current, keys[..m]);
    var step := ChangeFor(cache, current, keys[m]);
    ChangeForShape(cache, current, keys[m]);
    EventsOfStep(changes, step, clock);
  }

  /** Whether or not a publish raised, the loop built a prefix of the events of the changes `DiffKeys` finds. */
  lemma {:induction false} RunBuildsDiffEventsPrefix(cache: map<string, Job>, current: map<string, Job>, keys: seq<string>,
                                                     clock: nat -> Timestamp, handle: JobStatusEvent -> Handled)
    requires forall i :: 0 <= i < |keys| ==> keys[i] in current
    requires KeyedByName(current)
    ensures Run(cache, current, keys, clock, handle).events <= EventsOf(DiffKeys(cache, current, keys), clock)
  {
    if keys != [] {
      var m := |keys| - 1;
      if Run(cache, current, keys[..m], clock, handle).raised {
        RunBuildsDiffEventsPrefix(cache, current, keys[..m], clock, handle);
        DiffEventsGrow(cache, current, keys, clock);
      } else {
        RunBuildsAllDiffEvents(cache, current, keys[..m], clock, handle);
        RunEventsStep(cache, current, keys, clock, handle);
      }
    }
  }

  /** The loop's history rows and messages are those of its events, handled one after the other. */
  lemma {:induction false} RunWritesLogs(cache: map<string, Job>, current: map<string, Job>, keys: seq<string>,
                                         clock: nat -> Timestamp, handle: JobStatusEvent -> Handled)
    requires forall i :: 0 <= i < |keys| ==> keys[i] in current
    requires KeyedByName(current)
    ensures var t := Run(cache, current, keys, clock, handle);
            t.stored == StoredLog(t.events, handle) && t.sent == SentLog(t.events, handle)
  {
    if keys != [] {
      var m := |keys| - 1;
      RunWritesLogs(cache, current, keys[..m], clock, handle);
      var t := Run(cache, current, keys[..m], clock, handle);
      if !t.raised {
        var v := Visit(cache, current, keys[m], clock(|t.events|), handle);
        if v.events != [] {
          var es := t.events + v.events;
          assert es[..|es| - 1] == t.events;
        } else {
          assert t.events + v.events == t.events;
        }
      }
    }
  }

  /**
   * The loop raised iff the handling of its last event raised; the handling of
   * every earlier event returned normally.
   */
  lemma {:induction false} RunRaisesOnlyAtLast(cache: map<string, Job>, current: map<string, Job>, keys: seq<string>,
                                               clock: nat -> Timestamp, handle: JobStatusEvent -> Handled)
    requires forall i :: 0 <= i < |keys| ==> keys[i] in current
    requires KeyedByName(current)
    ensures var t := Run(cache, current, keys, clock, handle);
            && (!t.raised ==> AllHandled(t.events, handle))
            && (t.raised ==>
                  t.events != [] &&
                  AllHandled(t.events[..|t.events| - 1], handle) &&
                  !handle(t.events[|t.events| - 1]).ok)
  {
    if keys != [] {
      var m := |keys| - 1;
      RunRaisesOnlyAtLast(cache, current, keys[..m], clock, handle);
      var t := Run(cache, current, keys[..m], clock, handle);
      if !t.raised {
        var v := Visit(cache, current, keys[m], clock(|t.events|), handle);
        if v.events != [] {
          var es := t.events + v.events;
          assert es[..|es| - 1] == t.events;
        } else {
          assert t.events + v.events == t.events;
        }
      }
    }
  }

  /** What a poll publishes for `events` when no publish raises: for each event its alert, if any, then its update. */
  function AllPublications(events: seq<JobStatusEvent>, critical: set<string>, hasRedis: bool): seq<Publication>
  {
    if events == [] then []
    else AllPublications(events[..|events| - 1], critical, hasRedis) + Publications(events[|events| - 1], critical, hasRedis)
  }

  /** When no handling raised, every message of every event went out, in order. */
  lemma {:induction false} CleanHandlingSendsAll(events: seq<JobStatusEvent>, critical: set<string>, hasRedis: bool,
                                                 storeOk: JobStatusEvent -> bool, publishOk: Publication -> bool)
    requires AllHandled(events, Handler(critical, hasRedis, storeOk, publishOk))
    ensures SentLog(events, Handler(critical, hasRedis, storeOk, publishOk)) == AllPublications(events, critical, hasRedis)
  {
    if events != [] {
      var n := |events| - 1;
      assert forall i :: 0 <= i < n ==> events[..n][i] == events[i];
      CleanHandlingSendsAll(events[..n], critical, hasRedis, storeOk, publishOk);
      HandleOutcomeSpec(events[n], critical, hasRedis, storeOk, publishOk);
    }
  }

  /** The loop of one successful poll of `jobs` against the cache `cache`, over the names in first-seen order. */
  function PollTrace(cache: map<string, Job>, jobs: seq<Job>, clock: nat -> Timestamp,
                     handle: JobStatusEvent -> Handled): Trace
  {
    Run(cache, CacheOf(jobs), KeyOrder(jobs), clock, handle)
  }

  /**
   * A successful poll handles the events of the changes `PollChanges` finds, in
   * order, writing the history rows whose store succeeds. With no publish
   * raising it handles all of them and sends every message; otherwise it stops
   * right after the event whose publish raised, having sent the messages of
   * the events before it in full and a prefix of that event's.
   */
  lemma PollHandlesChanges(cache: map<string, Job>, jobs: seq<Job>, clock: nat -> Timestamp, critical: set<string>,
                           hasRedis: bool, storeOk: JobStatusEvent -> bool, publishOk: Publication -> bool)
    ensures var handle := Handler(critical, hasRedis, storeOk, publishOk);
            var t := PollTrace(cache, jobs, clock, handle);
            var all := EventsOf(PollChanges(cache, jobs), clock);
            && t.events <= all
            && t.stored == HistoryLog(t.events, storeOk)
            && (!t.raised ==> t.events == all && t.sent == AllPublications(t.events, critical, hasRedis))
            && (t.raised ==> t.events != [])
            && (t.raised && t.events != [] ==>
                  var n := |t.events| - 1;
                  var last := HandleOutcome(t.events[n], critical, hasRedis, storeOk, publishOk);
                  && !last.ok
                  && t.sent == AllPublications(t.events[..n], critical, hasRedis) + last.sent)
  {
    var handle := Handler(critical, hasRedis, storeOk, publishOk);
    var current, keys := CacheOf(jobs), KeyOrder(jobs);
    var t := Run(cache, current, keys, clock, handle);
    RunBuildsAllDiffEvents(cache, current, keys, clock, handle);
    RunBuildsDiffEventsPrefix(cache, current, keys, clock, handle);
    RunWritesLogs(cache, current, keys, clock, handle);
    RunRaisesOnlyAtLast(cache, current, keys, clock, handle);
    StoredLogIsHistory(t.events, critical, hasRedis, storeOk, publishOk);
    if !t.raised {
      CleanHandlingSendsAll(t.events, critical, hasRedis, storeOk, publishOk);
    } else {
      var n := |t.events| - 1;
      CleanHandlingSendsAll(t.events[..n], critical, hasRedis, storeOk, publishOk);
    }
  }

  /** One scheduler record with every field present. */
  function Record(name: string, status: string, id: string, workstation: string): Job
  {
    Job(Some(name), Some(status), Some(id), Some(workstation))
  }

  /** A poll that returns one record lists exactly that record under its name, and visits that name alone. */
  lemma SingleRecordPoll(j: Job)
    requires Named(j)
    ensures CacheOf([j]) == map[j.name.value := j]
    ensures KeyOrder([j]) == [j.name.value]
  {
    assert [j][..0] == [];
  }

  /** A job seen for the first time yields one event, from "NEW" to its status. */
  lemma FirstSightingScenario(ts: Timestamp)
    ensures var a := Record("JOB_A", "EXEC", "123", "CPU1");
            && PollChanges(map[], [a]) == [Change(a, None)]
            && MakeEvent(a, None, ts).jobName == "JOB_A"
            && MakeEvent(a, None, ts).oldStatus == "NEW"
            && MakeEvent(a, None, ts).newStatus == "EXEC"
  {
    var a := Record("JOB_A", "EXEC", "123", "CPU1");
    SingleRecordPoll(a);
    var current := map["JOB_A" := a];
    assert DiffKeys(map[], current, ["JOB_A"]) == DiffKeys(map[], current, []) + ChangeFor(map[], current, "JOB_A");
  }

  /** A cached job whose status moved yields one event from the old status to the new. */
  lemma StatusChangeScenario(ts: Timestamp)
    ensures var before := Record("JOB_A", "PEND", "123", "CPU1");
            var now := Record("JOB_A", "EXEC", "123", "CPU1");
            && PollChanges(map["JOB_A" := before], [now]) == [Change(now, Some(before))]
            && MakeEvent(now, Some(before), ts).oldStatus == "PEND"
            && MakeEvent(now, Some(before), ts).newStatus == "EXEC"
  {
    var now := Record("JOB_A", "EXEC", "123", "CPU1");
    SingleRecordPoll(now);
    assert ["JOB_A"][..0] == [];
  }

  /**
   * A job going from "EXEC" to "ABEND", with "ABEND" critical and every write
   * succeeding, is stored, alerted and then published as an update.
   */
  lemma AbendScenario(ts: Timestamp, critical: set<string>)
    requires "ABEND" in critical && "EXEC" !in critical
    ensures var e := JobStatusEvent("123", "JOB_A", "EXEC", "ABEND", "CPU1", ts, None, None);
            var alert := Alert("HIGH", "Job Failure", "JOB_A", "ABEND", "CPU1", ts);
            var h := HandleOutcome(e, critical, true, _ => true, _ => true);
            && h.ok && h.stored == [e]
            && h.sent == [Publication(AlertChannel, AlertNotification(alert)), Publication(JobUpdatesChannel, JobStatusUpdate(e))]
            && alert.Message() == "Job 'JOB_A' on workstation 'CPU1' failed with status: ABEND."
  {
    var e := JobStatusEvent("123", "JOB_A", "EXEC", "ABEND", "CPU1", ts, None, None);
    var alert := Alert("HIGH", "Job Failure", "JOB_A", "ABEND", "CPU1", ts);
    assert AlertFor(e, critical) == Some(alert);
    assert AlertPublications(e, critical, true) == [Publication(AlertChannel, AlertNotification(alert))];
    AbendAlertMessage(ts);
  }

  lemma EventsOfAppend(changes: seq<Change>, c: Change, clock: nat -> Timestamp)
    requires forall i :: 0 <= i < |changes| ==> Named(changes[i].job)
    requires Named(c.job)
    ensures EventsOf(changes + [c], clock) == EventsOf(changes, clock) + [MakeEvent(c.job, c.previous, clock(|changes|))]
  {
    assert (changes + [c])[..|changes|] == changes;
  }

  class JobMonitoringService {
    /** `redis_client` is set. */
    var hasRedis: bool
    var monitoringActive: bool
    var pollInterval: int
    var jobCache: map<string, Job>
    var isInitialized: bool
    /** The rows written to the status-history table. */
    ghost var history: seq<JobStatusEvent>
    /** The messages published on the event bus. */
    ghost var published: seq<Publication>

    /** Every cache entry is the record whose name is its key. */
    ghost predicate Valid()
      reads this
    {
      KeyedByName(jobCache)
    }

    constructor (pollInterval: int)
      ensures Valid()
      ensures this.pollInterval == pollInterval
      ensures !hasRedis && !monitoringActive && !isInitialized && jobCache == map[]
      ensures history == [] && published == []
    {
      this.pollInterval := pollInterval;
      hasRedis := false;
      monitoringActive := false;
      jobCache := map[];
      isInitialized := false;
      history := [];
      published := [];
    }

    /**
     * `initialize`: create the Redis client once. `clientCreated` is whether
     * creating it succeeded; when it raises, nothing changes.
     */
    method Initialize(clientCreated: bool)
      modifies this`hasRedis, this`isInitialized
      ensures old(isInitialized) ==> isInitialized && hasRedis == old(hasRedis)
      ensures !old(isInitialized) && clientCreated ==> isInitialized && hasRedis
      ensures !old(isInitialized) && !clientCreated ==> !isInitialized && hasRedis == old(hasRedis)
    {
      if isInitialized {
        return;
      }
      if clientCreated {
        hasRedis := true;
        isInitialized := true;
      }
    }

    /** The flag logic of `start_monitoring`; `started` is false when monitoring was already active. */
    method StartMonitoring() returns (started: bool)
      modifies this`monitoringActive
      ensures started <==> !old(monitoringActive)
      ensures monitoringActive
    {
      if monitoringActive {
        return false;
      }
      monitoringActive := true;
      started := true;
    }

    /** `stop_monitoring`. */
    method StopMonitoring()
      modifies this`monitoringActive
      ensures !monitoringActive
    {
      monitoringActive := false;
    }

    /** `_store_status_history`: a failed write is swallowed. */
    method StoreStatusHistory(e: JobStatusEvent, storeOk: JobStatusEvent -> bool)
      modifies this`history
      ensures history == old(history) + (if storeOk(e) then [e] else [])
    {
      if storeOk(e) {
        history := history + [e];
      }
    }

    /** `_send_alert`: publish on `alert_notifications` when a Redis client is set; `ok` is false when the publish raised. */
    method SendAlert(alert: Alert, publishOk: Publication -> bool) returns (ok: bool)
      modifies this`published
      ensures var p := Publication(AlertChannel, AlertNotification(alert));
              ok == (!hasRedis || publishOk(p)) &&
              published == old(published) + (if hasRedis && publishOk(p) then [p] else [])
    {
      ok := true;
      if hasRedis {
        var p := Publication(AlertChannel, AlertNotification(alert));
        if publishOk(p) {
          published := published + [p];
        } else {
          ok := false;
        }
      }
    }

    /** `_check_alert_rules`. */
    method CheckAlertRules(e: JobStatusEvent, critical: set<string>, publishOk: Publication -> bool) returns (ok: bool)
      modifies this`published
      ensures var ps := AlertPublications(e, critical, hasRedis);
              ok == (ps == [] || publishOk(ps[0])) &&
              published == old(published) + (if ok then ps else [])
    {
      var alert := AlertFor(e, critical);
      ok := true;
      if alert.Some? {
        ok := SendAlert(alert.value, publishOk);
      }
    }

    /** `_publish_realtime_update`. */
    method PublishRealtimeUpdate(e: JobStatusEvent, publishOk: Publication -> bool) returns (ok: bool)
      modifies this`published
      ensures var ps := UpdatePublications(e, hasRedis);
              ok == (ps == [] || publishOk(ps[0])) &&
              published == old(published) + (if ok then ps else [])
    {
      ok := true;
      if hasRedis {
        var p := Publication(JobUpdatesChannel, JobStatusUpdate(e));
        if publishOk(p) {
          published := published + [p];
        } else {
          ok := false;
        }
      }
    }

    /** `_handle_status_change`: store, then check the alert rule, then publish; `ok` is false when a publish raised. */
    method HandleStatusChange(e: JobStatusEvent, critical: set<string>,
                              storeOk: JobStatusEvent -> bool, publishOk: Publication -> bool) returns (ok: bool)
      modifies this`history, this`published
      ensures var h := HandleOutcome(e, critical, hasRedis, storeOk, publishOk);
              ok == h.ok && history == old(history) + h.stored && published == old(published) + h.sent
    {
      StoreStatusHistory(e, storeOk);
      ok := CheckAlertRules(e, critical, publishOk);
      if !ok {
        return;
      }
      ok := PublishRealtimeUpdate(e, publishOk);
    }

    /** `_process_job_update`: build the event for a snapshot and handle it. */
    method ProcessJobUpdate(job: Job, previous: Option<Job>, ts: Timestamp, critical: set<string>,
                            storeOk: JobStatusEvent -> bool, publishOk: Publication -> bool)
      returns (e: JobStatusEvent, ok: bool)
      requires Named(job)
      modifies this`history, this`published
      ensures e == MakeEvent(job, previous, ts)
      ensures var h := HandleOutcome(e, critical, hasRedis, storeOk, publishOk);
              ok == h.ok && history == old(history) + h.stored && published == old(published) + h.sent
    {
      e := MakeEvent(job, previous, ts);
      ok := HandleStatusChange(e, critical, storeOk, publishOk);
    }

    /** One pass of the loop body of `_poll_job_status` for the name `name`: skip an unchanged cached job, otherwise process the update. */
    method VisitJob(newCache: map<string, Job>, name: string, ts: Timestamp, critical: set<string>,
                    storeOk: JobStatusEvent -> bool, publishOk: Publication -> bool,
                    ghost handle: JobStatusEvent -> Handled)
      returns (handled: seq<JobStatusEvent>, ok: bool)
      requires name in newCache && KeyedByName(newCache)
      requires Implements(handle, critical, hasRedis, storeOk, publishOk)
      modifies this`history, this`published
      ensures var v := Visit(jobCache, newCache, name, ts, handle);
              handled == v.events && ok == !v.raised &&
              history == old(history) + v.stored && published == old(published) + v.sent
    {
      var job := newCache[name];
      handled, ok := [], true;
      if name in jobCache {
        var oldJob := jobCache[name];
        if oldJob.status != job.status {
          var e;
          e, ok := ProcessJobUpdate(job, Some(oldJob), ts, critical, storeOk, publishOk);
          handled := [e];
        }
      } else {
        var e;
        e, ok := ProcessJobUpdate(job, None, ts, critical, storeOk, publishOk);
        handled := [e];
      }
    }

    /**
     * The loop of `_poll_job_status` over `new_cache.items()`, visiting the names
     * `keys` of `newCache` in order and stopping at the first event whose
     * handling raised.
     */
    method VisitAll(newCache: map<string, Job>, keys: seq<string>, critical: set<string>, clock: nat -> Timestamp,
                    storeOk: JobStatusEvent -> bool, publishOk: Publication -> bool,
                    ghost handle: JobStatusEvent -> Handled)
      returns (events: seq<JobStatusEvent>, raised: bool)
      requires forall i :: 0 <= i < |keys| ==> keys[i] in newCache
      requires KeyedByName(newCache)
      requires Implements(handle, critical, hasRedis, storeOk, publishOk)
      modifies this`history, this`published
      ensures var t := Run(jobCache, newCache, keys, clock, handle);
              events == t.events && raised == t.raised &&
              history == old(history) + t.stored && published == old(published) + t.sent
    {
      events, raised := [], false;
      var cache := jobCache;
      ghost var history0, published0 := history, published;
      ghost var t := Idle;
      var i := 0;
      while i < |keys| && !raised
        invariant 0 <= i <= |keys|
        invariant jobCache == cache
        invariant t == Run(cache, newCache, keys[..i], clock, handle)
        invariant events == t.events && raised == t.raised
        invariant history == history0 + t.stored && published == published0 + t.sent
      {
        ghost var v := Visit(cache, newCache, keys[i], clock(|events|), handle);
        RunStep(cache, newCache, keys, i, clock, handle);
        var handled, ok := VisitJob(newCache, keys[i], clock(|events|), critical, storeOk, publishOk, handle);
        AppendAssoc(history0, t.stored, v.stored);
        AppendAssoc(published0, t.sent, v.sent);
        events := events + handled;
        raised := !ok;
        t := Trace(t.events + v.events, t.stored + v.stored, t.sent + v.sent, v.raised);
        i := i + 1;
      }
      if raised {
        RunStopsAtRaise(cache, newCache, keys, i, clock, handle);
      } else {
        assert keys[..i] == keys;
      }
    }

    /**
     * `_poll_job_status`. On a failed query nothing changes. Otherwise every
     * change `PollChanges` finds is handled in order; if a publish raises, the
     * poll stops there and the cache keeps its old value (`raised`); else the
     * cache is replaced by the new map as a whole.
     */
    method PollJobStatus(outcome: QueryOutcome, critical: set<string>, clock: nat -> Timestamp,
                         storeOk: JobStatusEvent -> bool, publishOk: Publication -> bool)
      returns (events: seq<JobStatusEvent>, raised: bool)
      requires Valid()
      modifies this`jobCache, this`history, this`published
      ensures Valid()
      ensures outcome.QueryFailed? ==>
                !raised && events == [] && jobCache == old(jobCache) &&
                history == old(history) && published == old(published)
      ensures outcome.QueryOk? ==>
                var t := PollTrace(old(jobCache), outcome.jobs, clock, Handler(critical, hasRedis, storeOk, publishOk));
                events == t.events && raised == t.raised &&
                history == old(history) + t.stored && published == old(published) + t.sent &&
                jobCache == (if raised then old(jobCache) else CacheOf(outcome.jobs))
    {
      if outcome.QueryFailed? {
        return [], false;
      }
      var newCache := CacheOf(outcome.jobs);
      HandlerImplements(critical, hasRedis, storeOk, publishOk);
      events, raised := VisitAll(newCache, KeyOrder(outcome.jobs), critical, clock, storeOk, publishOk,
                                 Handler(critical, hasRedis, storeOk, publishOk));
      if !raised {
        jobCache := newCache;
      }
    }
  }
}
