# Job monitoring pipeline: a Dafny model

This project models the job-monitoring pipeline of a dashboard for a workload
scheduler (HCL Workload Automation), together with the request logic of its
HWA routes.

- **The poller** is `JobMonitoringService` in
  `src/services/monitoring/job_monitor.py`. It keeps a cache of the last
  snapshot of every job stream, keyed by name. On each cycle it queries the
  scheduler and builds the new cache from the records that have a truthy
  `jobStreamName`. It then builds a `JobStatusEvent` for every job that is new
  or whose status changed. Each event is stored in the status history, checked
  against the edge-triggered alert rule, and published on the event bus. Last,
  the cache is replaced as a whole.
- **The connection registry** is `WebSocketManager` in
  `src/services/monitoring/websocket.py`. It maps users to their open
  WebSocket connections. A personal send drops exactly the connections whose
  send raised. A broadcast sends to every user present when it starts. One
  step of the Redis subscriber forwards a decodable bus message and skips
  anything else.
- **The HWA routes** are in `src/api/hwa.py`:
  - the whole-word, case-insensitive OQL keyword blocklist;
  - the abend and running counts of the dashboard;
  - the whitelist of job actions;
  - the routing of OQL queries to the plan or the model service.

Files:

- `common.dfy`: `Option`, `GetOr` (the `dict.get` with a default), and the
  associativity of sequence concatenation.
- `job_model.dfy`:
  - the records: the job snapshot, `JobStatusEvent`, the alert and the bus
    envelopes;
  - the event construction and the alert rule;
  - what handling one event stores and publishes.
- `job_diff.dfy`: the specification of one successful poll. It covers:
  - the new cache;
  - the order in which its names are visited (Python dicts keep
    first-insertion order);
  - the changes found against the old cache;
  - per-job properties of those changes.
- `job_monitor.dfy`: the class `JobMonitoringService`, with the fields of the
  source and ghost logs of history rows and published messages. It also holds
  the function `Run` that its poll loop is proved against, and the lemmas
  tying `Run` to the diff.
- `registry.dfy`: the registry as a map from users to sets of connections, and
  the class `WebSocketManager` that updates it in place.
- `hwa_api.dfy`: the route logic of `src/api/hwa.py`.

The scheduler query, the clock, the history store, the Redis publishes and the
WebSocket sends are not run. Each becomes a parameter:

- the query is an outcome, either failure or a list of records;
- the clock is a function from an event's position in the cycle to a
  timestamp;
- the history store and the publishes are predicates saying which writes
  succeed;
- the WebSocket sends are the set of connections whose send raises.

## Model

| member | source | states |
|---|---|---|
| JobModel.MakeEvent | src/services/monitoring/job_monitor.py:89-96 | builds the `JobStatusEvent` of a snapshot and its previous snapshot; its defaults are stated by `EventDefaults` |
| JobModel.EventDefaults | src/services/monitoring/job_monitor.py:88-96 | `job_id` falls back to the job name; a missing status becomes "UNKNOWN"; a missing workstation becomes ""; `old_status` is "NEW" when there is no old snapshot or it lacks a status, and the old status otherwise; duration and error message are unset |
| JobModel.AlertFor | src/services/monitoring/job_monitor.py:114-117 | the alert, if any, that `_check_alert_rules` builds for an event; the rule is stated by `AlertRule`, `CriticalToCriticalNoAlert` and `NewToCriticalAlerts` |
| JobModel.AlertRule | src/services/monitoring/job_monitor.py:114-117 | an alert is raised iff the new status is critical and the old one is not; it has severity HIGH and title "Job Failure", and carries the event's job, new status, workstation and time |
| JobModel.AbendAlertMessage | src/services/monitoring/job_monitor.py:116 | the alert text for JOB_A failing with ABEND on CPU1 is "Job 'JOB_A' on workstation 'CPU1' failed with status: ABEND." |
| JobModel.CriticalToCriticalNoAlert | src/services/monitoring/job_monitor.py:115 | a job moving between two critical statuses is not alerted again |
| JobModel.NewToCriticalAlerts | src/services/monitoring/job_monitor.py:115 | a job first seen in a critical status is alerted with that status, unless "NEW" is itself critical |
| JobModel.Publications | src/services/monitoring/job_monitor.py:119-127 | without a Redis client nothing is published; with one, the alert (if any) goes out on `alert_notifications` before the update on `job_updates`; each envelope goes to its own channel |
| JobModel.HandleOutcome | src/services/monitoring/job_monitor.py:99-112 | the stored row, the messages sent and the raise of handling one event; stated by `HandleOutcomeSpec` |
| JobModel.HandleOutcomeSpec | src/services/monitoring/job_monitor.py:99-112 | handling an event stores it iff the store succeeds, whatever happens to the publishes; what it publishes is a prefix of its publications, each of which succeeded; it returns normally iff every publish succeeds; if it raises, it stops at the first failed publish |
| JobDiff.CacheOf | src/services/monitoring/job_monitor.py:78 | the new cache holds exactly the names some record carries truthily, each mapped to a record of that name |
| JobDiff.LaterDuplicateOverwrites | src/services/monitoring/job_monitor.py:78 | the record cached under a name is the last record of the list with that name |
| JobDiff.KeyOrder | src/services/monitoring/job_monitor.py:78-79 | the visiting order lists every name of the new cache once, and no other name |
| JobDiff.FirstIndex | src/services/monitoring/job_monitor.py:78 | the position of the first record carrying a name: a record of that name, with none before it |
| JobDiff.KeyOrderIsFirstSeen | src/services/monitoring/job_monitor.py:78-79 | one name is visited before another iff its first record comes earlier in the list, so the dict built at line 78 is walked in first-insertion order |
| JobDiff.KeyOrderMatchesCache | src/services/monitoring/job_monitor.py:78-79 | the names visited are exactly the keys of the new cache |
| JobDiff.ChangeFor | src/services/monitoring/job_monitor.py:80-85 | the change one pass of the loop body finds for a name; stated by `ChangeForShape`, `NewJobYieldsOneEvent`, `UnchangedStatusYieldsNoEvent` and `ChangedStatusYieldsOneEvent` |
| JobDiff.ChangeForShape | src/services/monitoring/job_monitor.py:80-85 | one pass of the loop body finds at most one change, about the job it visits |
| JobDiff.DiffKeys | src/services/monitoring/job_monitor.py:79-85 | visiting a list of names finds at most one change per name, each with a named snapshot |
| JobDiff.ChangesForKey | src/services/monitoring/job_monitor.py:79-85 | over distinct names, the changes about job `k` are what the loop body finds for `k` if `k` is visited, and none otherwise |
| JobDiff.PollChanges | src/services/monitoring/job_monitor.py:78-85 | the changes one successful poll finds, in visiting order; stated by `PollChangesForKey`, `AtMostOneEventPerJob`, `VanishedJobYieldsNoEvent` and `SecondPollIsQuiet` |
| JobDiff.PollChangesForKey | src/services/monitoring/job_monitor.py:78-85 | the changes a poll finds about job `k` are what the loop body finds for `k` if `k` is in the new cache, and none otherwise |
| JobDiff.NewJobYieldsOneEvent | src/services/monitoring/job_monitor.py:84-93 | a listed job missing from the old cache yields exactly one change, with no previous snapshot; its event goes from "NEW" to the job's status, or to "UNKNOWN" if it has none |
| JobDiff.UnchangedStatusYieldsNoEvent | src/services/monitoring/job_monitor.py:80-83 | a cached job whose status is unchanged yields no change |
| JobDiff.ChangedStatusYieldsOneEvent | src/services/monitoring/job_monitor.py:80-93 | a cached job whose status differs yields exactly one change; its event goes from the old status to the new one |
| JobDiff.VanishedJobYieldsNoEvent | src/services/monitoring/job_monitor.py:78-86 | a job absent from the new list yields no change, whether or not it was cached |
| JobDiff.AtMostOneEventPerJob | src/services/monitoring/job_monitor.py:79 | each job contributes at most one change per poll |
| JobDiff.DiffAgainstItselfIsEmpty | src/services/monitoring/job_monitor.py:80-83 | a cache compared with itself yields no change |
| JobDiff.SecondPollIsQuiet | src/services/monitoring/job_monitor.py:78-86 | polling the same list a second time yields no change |
| JobMonitor.StoredLogIsHistory | src/services/monitoring/job_monitor.py:105-112 | handling a run of events writes exactly the history rows whose store succeeds, in order |
| JobMonitor.Visit | src/services/monitoring/job_monitor.py:80-85 | one pass of the loop body for a name: nothing for an unchanged cached job, otherwise the event of its change, handled; what it builds is stated by `VisitEvents` and `VisitJob` |
| JobMonitor.Run | src/services/monitoring/job_monitor.py:79-85 | the loop over the names in order, ending at the first pass whose handling raised; stated by `RunStopsAtRaise`, `RunBuildsAllDiffEvents`, `RunBuildsDiffEventsPrefix`, `RunWritesLogs` and `RunRaisesOnlyAtLast` |
| JobMonitor.RunStopsAtRaise | src/services/monitoring/job_monitor.py:79-85 | once a handled event raised, the rest of the loop does nothing |
| JobMonitor.RunBuildsAllDiffEvents | src/services/monitoring/job_monitor.py:79-85 | a loop in which no publish raised built the events of all the changes the diff finds, in order |
| JobMonitor.RunBuildsDiffEventsPrefix | src/services/monitoring/job_monitor.py:79-85 | whether or not a publish raised, the loop built a prefix of those events |
| JobMonitor.RunWritesLogs | src/services/monitoring/job_monitor.py:79-85 | the loop's history rows and messages are those of its events, handled one after the other |
| JobMonitor.RunRaisesOnlyAtLast | src/services/monitoring/job_monitor.py:79-85 | the loop raised iff the handling of its last event raised; every earlier event was handled normally |
| JobMonitor.CleanHandlingSendsAll | src/services/monitoring/job_monitor.py:101-103 | when no handling raised, every event's alert (if any) and update went out, event by event |
| JobMonitor.PollTrace | src/services/monitoring/job_monitor.py:78-86 | the loop of one successful poll, over the names of the new cache in first-seen order; stated by `PollHandlesChanges` |
| JobMonitor.PollHandlesChanges | src/services/monitoring/job_monitor.py:78-86 | a successful poll handles a prefix of the diff's events and stores the rows whose store succeeds; with no raise it handles all of them and sends every message; otherwise it ends with the event whose publish raised, after the full messages of the events before it |
| JobMonitor.SingleRecordPoll | src/services/monitoring/job_monitor.py:78-79 | a poll of one named record caches it under its name and visits that name alone |
| JobMonitor.FirstSightingScenario | tests/test_monitoring.py:32-57 | JOB_A first seen in EXEC yields one change and an event from NEW to EXEC |
| JobMonitor.StatusChangeScenario | tests/test_monitoring.py:60-93 | JOB_A cached in PEND and now in EXEC yields one change and an event from PEND to EXEC |
| JobMonitor.AbendScenario | tests/test_monitoring.py:96-114 | EXEC to ABEND, with ABEND critical and every write succeeding, stores the event and publishes the alert, then the update; the alert text is as expected |
| JobMonitor.JobMonitoringService.constructor | src/services/monitoring/job_monitor.py:31-36 | starts with no Redis client, monitoring off, an empty cache, not initialized, and empty logs |
| JobMonitor.JobMonitoringService.Initialize | src/services/monitoring/job_monitor.py:38-42 | a second call changes nothing; a first call sets the client and the flag when creating the client succeeds, and changes nothing when it raises |
| JobMonitor.JobMonitoringService.StartMonitoring | src/services/monitoring/job_monitor.py:45-49 | reports a start iff monitoring was off; monitoring is on afterwards |
| JobMonitor.JobMonitoringService.StopMonitoring | src/services/monitoring/job_monitor.py:59-60 | monitoring is off afterwards |
| JobMonitor.JobMonitoringService.StoreStatusHistory | src/services/monitoring/job_monitor.py:105-112 | appends the event to the history iff the write succeeds; a failure is swallowed |
| JobMonitor.JobMonitoringService.SendAlert | src/services/monitoring/job_monitor.py:119-122 | publishes the alert on `alert_notifications` iff a Redis client is set; reports a raise when that publish fails |
| JobMonitor.JobMonitoringService.CheckAlertRules | src/services/monitoring/job_monitor.py:114-117 | publishes the alert the rule yields, if any, and reports whether its publish raised |
| JobMonitor.JobMonitoringService.PublishRealtimeUpdate | src/services/monitoring/job_monitor.py:124-127 | publishes the update on `job_updates` iff a Redis client is set; reports whether it raised |
| JobMonitor.JobMonitoringService.HandleStatusChange | src/services/monitoring/job_monitor.py:99-103 | store, then alert check, then update; history and bus grow exactly as `HandleOutcome` says |
| JobMonitor.JobMonitoringService.ProcessJobUpdate | src/services/monitoring/job_monitor.py:88-97 | builds `MakeEvent` of the snapshot and handles it |
| JobMonitor.JobMonitoringService.VisitJob | src/services/monitoring/job_monitor.py:80-85 | one loop pass does what `Visit` says: nothing for an unchanged cached job, and the handled event otherwise |
| JobMonitor.JobMonitoringService.VisitAll | src/services/monitoring/job_monitor.py:79-85 | the loop's events, raise flag, history and messages are those of `Run` over the visiting order |
| JobMonitor.JobMonitoringService.PollJobStatus | src/services/monitoring/job_monitor.py:63-86 | a failed query changes nothing and yields no event; otherwise the poll is `PollTrace` and the cache becomes the new map, unless a publish raised, in which case the old cache stays; the cache stays keyed by name |
| Registry.Connected | src/services/monitoring/websocket.py:26-28 | the registry after `connect`: the handle added to the user's set, created if missing; stated by `ConnectRegisters` and `ConnectIdempotent` |
| Registry.ConnectRegisters | src/services/monitoring/websocket.py:23-29 | after `connect`, the user is a key holding the handle besides its earlier ones; no other user changes; no key holds an empty set |
| Registry.ConnectIdempotent | src/services/monitoring/websocket.py:26-28 | connecting the same handle twice leaves a single entry |
| Registry.Pruned | src/services/monitoring/websocket.py:33-36 | the registry with some handles of a user discarded, and the user removed when none is left; stated by `PrunedSpec` |
| Registry.Disconnected | src/services/monitoring/websocket.py:31-37 | the registry after `disconnect` of one handle; stated by `DisconnectUnknownIsNoOp`, `DisconnectUndoesConnect` and `DisconnectAfterPrune` |
| Registry.PrunedSpec | src/services/monitoring/websocket.py:31-37 | discarding handles leaves the user exactly its other handles; it stays a key iff some are left; other users do not change; no key holds an empty set |
| Registry.DisconnectUnknownIsNoOp | src/services/monitoring/websocket.py:33-34 | disconnecting an unknown user or a handle the user does not hold changes nothing |
| Registry.DisconnectUndoesConnect | src/services/monitoring/websocket.py:23-37 | disconnecting a handle just connected restores the registry |
| Registry.DisconnectAfterPrune | src/services/monitoring/websocket.py:50-51 | disconnecting the failed handles one at a time discards them all |
| Registry.PruneNothing | src/services/monitoring/websocket.py:41 | discarding no handle changes nothing |
| Registry.Deliveries | src/services/monitoring/websocket.py:53-57 | the user and connection pairs a broadcast over some users reaches: their live connections; stated by `NoFailureReachesAll`, `DeadConnectionIsIsolated` and the contract of `Broadcast` |
| Registry.PrunedUsers | src/services/monitoring/websocket.py:53-57 | the registry after a broadcast over some users, with their failed connections removed; stated by `PrunedUsersSpec` |
| Registry.PrunedUsersSpec | src/services/monitoring/websocket.py:53-57 | after a broadcast a user stays iff one of its connections is live, keeping exactly the live ones |
| Registry.NoFailureReachesAll | src/services/monitoring/websocket.py:53-57 | with no failing connection, a broadcast reaches every connection and drops nobody |
| Registry.DeadConnectionIsIsolated | src/services/monitoring/websocket.py:43-51 | a failing connection does not stop a live connection of another user from being reached and kept |
| Registry.FanOutExample | src/services/monitoring/websocket.py:56-57 | users A with two connections and B with one make three connections, and a broadcast with no failure reaches all three |
| Registry.WebSocketManager.constructor | src/services/monitoring/websocket.py:11-14 | starts with no connections and no Redis client |
| Registry.WebSocketManager.Initialize | src/services/monitoring/websocket.py:16-21 | the client is set once creating it succeeds |
| Registry.WebSocketManager.Connect | src/services/monitoring/websocket.py:23-29 | the registry becomes `Connected` of the old one, and keeps no empty entry |
| Registry.WebSocketManager.Disconnect | src/services/monitoring/websocket.py:31-37 | the registry becomes `Disconnected` of the old one, and keeps no empty entry |
| Registry.WebSocketManager.TrySends | src/services/monitoring/websocket.py:43-47 | the send loop tries each connection of the user exactly once (as a multiset of attempted sends); the message reaches exactly the live ones and exactly the failing ones are collected |
| Registry.WebSocketManager.SendPersonalMessage | src/services/monitoring/websocket.py:39-51 | every connection of the user is sent the message exactly once (the log of attempted sends grows by exactly those pairs, as a multiset); the message reaches exactly the live ones; exactly the failed ones are removed, and the user with them if none is left; an absent user is a no-op and sends nothing |
| Registry.WebSocketManager.DisconnectAll | src/services/monitoring/websocket.py:50-51 | disconnecting each collected handle discards exactly those handles of the user |
| Registry.WebSocketManager.Broadcast | src/services/monitoring/websocket.py:53-57 | every connection of every user present at the start is sent the message exactly once (the log of attempted sends grows by exactly the registry's pairs, as a multiset); the deliveries are exactly their live connections; the registry ends pruned of exactly the failed ones |
| Registry.WebSocketManager.SubscriberStep | src/services/monitoring/websocket.py:74-79 | broadcasts iff there is a message of type "message" whose data decodes, sending once to each connection; otherwise nothing changes, nothing is sent and nothing is delivered |
| HwaApi.Search | src/api/hwa.py:29 | the scan finds a match iff the keyword occurs as a whole word, ignoring case, at or after the start position |
| HwaApi.IsOqlQuerySafe | src/api/hwa.py:26-32 | a query is safe iff none of the nine blocked keywords occurs in it as a whole word, ignoring case |
| HwaApi.SafetyIgnoresCase | src/api/hwa.py:29 | a query is safe iff its case-folded form is |
| HwaApi.EmptyQueryIsSafe | src/api/hwa.py:28-32 | the empty query is safe |
| HwaApi.DeletedIsSafe | src/api/hwa.py:29 | "DELETED" is safe: a keyword inside a longer word is not blocked |
| HwaApi.UnderscoreJoinsWords | src/api/hwa.py:29 | "MY_UPDATE" does not contain UPDATE as a word, since `_` is a word character |
| HwaApi.LowerCaseDeleteIsBlocked | src/api/hwa.py:29 | "delete from plan" is blocked |
| HwaApi.LongSIsBlocked | src/api/hwa.py:29 | "\u017fubmit job" (long s) is blocked, since the long s matches S under `re.IGNORECASE` |
| HwaApi.DotlessIIsBlocked | src/api/hwa.py:29 | "\u0131nsert into x" (dotless i) is blocked, since the dotless i matches I under `re.IGNORECASE` |
| HwaApi.WithStatus | src/api/hwa.py:48-49 | the filter keeps exactly the records whose lower-cased status, "" when missing, is the target |
| HwaApi.WithStatusDistributes | src/api/hwa.py:48-49 | the filter keeps order: filtering a concatenation filters each part |
| HwaApi.CountsBoundedByTotal | src/api/hwa.py:48-53 | no record is both abended and running, so the two counts together never exceed the total |
| HwaApi.DashboardData | src/api/hwa.py:38-46 | the response is a 500 error iff one of the two queries failed |
| HwaApi.DashboardCounts | src/api/hwa.py:48-58 | the counts are the lengths of the lists; the totals are those of the queries; the lists are the abended and running records, disjoint, with counts summing to at most the total |
| HwaApi.DashboardExample | tests/test_app.py:59-78 | one ABEND and one EXEC stream and one workstation give one abended and one running |
| HwaApi.ActionCommand | src/api/hwa.py:72-78 | exactly cancel, rerun, hold and release are accepted, case-sensitively |
| HwaApi.ActionMapIsBijective | src/api/hwa.py:72-81 | each accepted action calls its own command, and each command is called by one action |
| HwaApi.Capitalize | src/api/hwa.py:82 | the first character is upper-cased and the rest lower-cased |
| HwaApi.JobActionEndpoint | src/api/hwa.py:71-82 | an action outside the whitelist is refused with 400 and no call; a valid one calls exactly its command on the given job and plan, with the capitalized action in the message |
| HwaApi.RerunMessage | src/api/hwa.py:82 | the message for "rerun" is "'Rerun' command sent." |
| HwaApi.ExecuteOql | src/api/hwa.py:63-69 | an unsafe query is refused with 400 before any client call; a safe one goes unchanged to the model service iff `source` is "model", and to the plan service otherwise |

## Left out

- The clock:
  - `datetime.now()` is a parameter, indexed by the event's position in the cycle.
  - The `isoformat` rendering of timestamps is not modelled; a timestamp is an integer.
- The scheduler client:
  - The HWA client and `query_job_streams` are an abstract outcome: failure, or a list of records. Its exception classes (`src/hwa_connector.py`) are not part of this model; the catch-all makes every failure the same.
  - In the dashboard, `query_workstations` and the `asyncio.gather` are outcomes.
  - The `details` a job action returns from the service is not modelled.
  - The query results of `execute_oql` are not modelled; only the route taken is.
- Persistence and the bus:
  - SQLAlchemy sessions and Redis are not modelled. A write is a predicate saying whether it succeeds, and what was written goes into a ghost log.
  - The JSON encoding of envelopes (`json.dumps`, `to_dict`) is not modelled; an envelope is a datatype.
- Configuration:
  - `config.CRITICAL_STATUSES` and `config.REDIS_URL` are not defined in `src/core/config.py`.
  - The critical set is therefore a parameter.
  - Creating a Redis client is an outcome, success or failure.
- Loops about timing and concurrency:
  - The `asyncio.sleep` polling loop of `start_monitoring` (`job_monitor.py:52-57`), including the loop that catches and logs a raising poll.
  - The retry and resubscribe loop of `subscribe_to_updates` (`websocket.py:61-73, 80-86`); only one message step is modelled.
  - Concurrent interleavings of coroutines; every coroutine runs to completion.
- Logging and `websocket.accept()`.
- Input types:
  - Record values are strings or missing. An explicit `None`, a non-string name or a non-string status is not modelled.
  - Truthiness of a name is "present and non-empty".
- Iteration order of the sends. `send_personal_message` iterates the user's set of connections; `broadcast` iterates the list of the registry's keys, in insertion order. The model picks the next user or connection arbitrarily. What is delivered, the final registry and the multiset of attempted sends do not depend on that order; the order of the send log is not modelled.
- Dict iteration order. It is modelled explicitly as first-insertion order (`KeyOrder`).
- HwaApi.IsOqlQuerySafe:
  - Case folding is ASCII plus the three non-ASCII characters that `re.IGNORECASE` matches against a keyword letter: the long s (to S), the dotless i and the dotted capital I (to I). The Kelvin sign also folds to an ASCII letter, K, which no keyword contains.
  - `\w` is taken to be the ASCII letters, digits, `_` and those three characters. Every other Unicode letter or digit is a word character in the source but not in the model, so a keyword directly next to one (as in "éDELETE") is blocked by the model and accepted by the source.
- HwaApi.WithStatus: `str.lower()` is ASCII lowering. For the targets "abend" and "exec" this gives the same verdict: no non-ASCII character lowers to one of their letters.
- HwaApi.Capitalize: ASCII only.
- Registry.WebSocketManager.SendPersonalMessage: whether a send raises is a fixed set of failing connections per call. It does not depend on the message or on time.
- Registry.WebSocketManager.Broadcast: the same holds for the failing connections.
- Registry.WebSocketManager.Connect, Registry.WebSocketManager.Disconnect, Registry.WebSocketManager.SendPersonalMessage, Registry.WebSocketManager.Broadcast:
  - These require the registry invariant that no user maps to an empty set.
  - The source states no such precondition, but the constructor establishes the invariant and every mutator keeps it.
- JobMonitor.JobMonitoringService.PollJobStatus: a publish that raises propagates out of `_handle_status_change` and out of the poll. The loop stops there and the cache swap at line 86 is skipped. The model follows the code. So after a raising publish the old cache stays: the next poll finds the same changes again, stores their history rows again and sends their critical alerts again.
- The rest of the repository: ML code, Flask and desktop code, security, configuration file handling, the ORM declarations and the Celery tasks.
