# Realtime config stream client: reconnect and backoff

A Dafny model of the reconnect-and-backoff core of Firebase Remote Config's
realtime client, `ConfigRealtimeHttpClient`. The client keeps one long-lived
HTTP stream open to the realtime endpoint. When that stream fails or ends, it
decides whether to reconnect and when. It also keeps a persisted count of
failed streams and a backoff end time, and it reports terminal errors to its
listeners.

The network, the clock and `java.util.Random` become inputs:

- a stream attempt's result is an `Outcome`. Either no status was read
  (`NoResponse`: an `IOException` while connecting), or a status was read. For a
  200, `Listen` records whether the server sent the realtime-disabled message
  and whether reading the stream threw;
- each clock read is its own parameter. These are the time the attempt fires,
  the failure time read in the `finally` block, and the time read by
  `retryHttpConnection`;
- the random source is a function `nextInt` with `Random.nextInt`'s contract
  (`0 <= nextInt(b) < b` for `b > 0`);
- scheduling an attempt on the executor is the event `Schedule(delayMillis)`.
  A call of `propagateErrors` is the event `Propagate(error)`.

Modules:

- `Backoff`: the table `{2, 4, …, 256}` minutes, the jittered delay `t/2 + r`,
  and the initial retry budget `max(8 − failures, 1)`.
- `AppId`: extracts the project number from an App Id matching
  `[^:]+:([0-9]+):(android|ios|web):([0-9a-f]+)`. The match is proved
  equivalent to a colon-position description of the pattern.
- `HttpStatus`: the status codes, and the retryable set
  {408, 429, 502, 503, 504}. These are RFC 9110 sections 15.5.9, 15.6.3,
  15.6.4 and 15.6.5, and RFC 6585 section 4.
- `RealtimeClient`: the state record (listeners, running, disabled, background,
  retries, failure count, backoff end), the guard, `makeRealtimeHttpConnection`,
  `retryHttpConnection`, the metadata update and `beginRealtimeHttpStream`.
- `AttemptProperties`: what one attempt does, case by case.
- `ClientTrace`: runs of inputs, and the invariants that hold over every run.

Three behaviours of the code worth knowing:

- The code counts a failure only when no status was read or the status is
  retryable (line 455). Other non-200 statuses leave the count alone.
- An `IOException` is broadcast to the listeners before the retry (lines
  444-450). This includes one thrown while reading a stream that had already
  answered 200. The failure count is not bumped in that case.
- The jittered delay lies in the half-open range `[t/2, 3t/2)`, because
  `nextInt(t)` is below `t`.

## Model

| member | source | states |
|---|---|---|
| Backoff.BaseMinutes | firebase-config/src/main/java/com/google/firebase/remoteconfig/internal/ConfigRealtimeHttpClient.java:62-68 | The table entry for n ≥ 1 failures; the n-th entry, capped at the last. Each entry is between 2 and 256 minutes, and the first failure gives 2. The doubling shape is stated by `Backoff.BaseIsPowerOfTwo` |
| Backoff.BaseMillis | firebase-config/src/main/java/com/google/firebase/remoteconfig/internal/ConfigRealtimeHttpClient.java:270-272 | The base duration is between 2 and 256 minutes, is even (so halving it is exact), and fits the Java `int` it is cast to before the draw. Its value, 2^min(n, 8) minutes in milliseconds, is stated by `Backoff.BaseIsPowerOfTwo`, and its monotone shape by `Backoff.BaseMonotone` |
| Backoff.RandomizedBackoffMillis | firebase-config/src/main/java/com/google/firebase/remoteconfig/internal/ConfigRealtimeHttpClient.java:267-276 | For every failure count n ≥ 1 and draw in [0, t), the delay lies in [t/2, 3t/2). That is [60000, 180000) ms for n = 1 and [7680000, 23040000) ms for n ≥ 8 |
| Backoff.JitterCoversWindow | firebase-config/src/main/java/com/google/firebase/remoteconfig/internal/ConfigRealtimeHttpClient.java:274-275 | Each delay in the window [t/2, 3t/2) comes from exactly one draw, so the window is exact |
| Backoff.BaseIsPowerOfTwo | firebase-config/src/main/java/com/google/firebase/remoteconfig/internal/ConfigRealtimeHttpClient.java:62-68 | The table entry for n failures is 2^min(n, 8) minutes, and the base duration in milliseconds is 2^min(n, 8) times 60000 |
| Backoff.BaseMonotone | firebase-config/src/main/java/com/google/firebase/remoteconfig/internal/ConfigRealtimeHttpClient.java:268-272 | The base duration, in minutes and in milliseconds, never decreases as failures grow, and is 256 minutes for every n ≥ 8 |
| Backoff.InitialRetries | firebase-config/src/main/java/com/google/firebase/remoteconfig/internal/ConfigRealtimeHttpClient.java:122-125 | The initial budget is the larger of 8 − failures and 1. It is always at least 1, and at most 8 when the persisted count is non-negative |
| AppId.ExtractProjectNumber | firebase-config/src/main/java/com/google/firebase/remoteconfig/internal/ConfigRealtimeHttpClient.java:146-149 | A returned project number is a non-empty string of digits with no colon |
| AppId.ExtractProjectNumberMatchesPattern | firebase-config/src/main/java/com/google/firebase/remoteconfig/internal/ConfigRealtimeHttpClient.java:143-148 | A number is returned exactly when the whole id matches the App Id pattern, and it is the field between the first two colons. Otherwise nothing (null) is returned |
| HttpStatus.IsStatusCodeRetryable | firebase-config/src/main/java/com/google/firebase/remoteconfig/internal/ConfigRealtimeHttpClient.java:396-404 | Definition of the five retryable statuses. Every retryable status is a 4xx or 5xx error (never 200), and among the 5xx statuses exactly 502, 503 and 504 are retryable. `AttemptProperties.FailedConnectionBacksOff` and `AttemptProperties.TerminalStatusIsReported` split on it |
| RealtimeClient.CanStart | firebase-config/src/main/java/com/google/firebase/remoteconfig/internal/ConfigRealtimeHttpClient.java:282-287 | Definition of the guard: some listener, no running connection, realtime not disabled and the app in the foreground. `AttemptProperties.GuardBlocksEveryEntry` shows that a closed guard blocks every entry point |
| RealtimeClient.StatusFailed | firebase-config/src/main/java/com/google/firebase/remoteconfig/internal/ConfigRealtimeHttpClient.java:455 | Definition of a failed connection: no status was read, or the status is retryable. `RealtimeClient.FinishAttempt` bumps the backoff exactly on it |
| RealtimeClient.ConnectionFailed | firebase-config/src/main/java/com/google/firebase/remoteconfig/internal/ConfigRealtimeHttpClient.java:426-455 | The same definition over an attempt's outcome: an I/O failure while connecting leaves no status. `AttemptProperties.FailedConnectionBacksOff` takes it as its case |
| RealtimeClient.NewClient | firebase-config/src/main/java/com/google/firebase/remoteconfig/internal/ConfigRealtimeHttpClient.java:116-136 | A new client has the given listeners and is valid: not running, not disabled, in the foreground, with the persisted metadata. Its budget is exactly `InitialRetries` of the persisted failure count, so at least 1 and covering 8 minus the persisted failures |
| RealtimeClient.MakeConnection | firebase-config/src/main/java/com/google/firebase/remoteconfig/internal/ConfigRealtimeHttpClient.java:335-357 | If the guard fails: no change and no event. Otherwise, with retries left: one fewer retry and exactly one attempt scheduled with the delay. With none left: one "unable to connect" error and no change. Retries never go negative. The guard already requires the foreground, so the code's silent branch for an exhausted budget in the background (line 351) is reached by no input of this model |
| RealtimeClient.StartConnection | firebase-config/src/main/java/com/google/firebase/remoteconfig/internal/ConfigRealtimeHttpClient.java:319-321 | The first attempt goes through the same path with no delay. With the guard open and retries left, one retry is spent and one attempt is scheduled at once. With none left, one "unable to connect" error and no change. With the guard closed, nothing happens |
| RealtimeClient.RetryDelay | firebase-config/src/main/java/com/google/firebase/remoteconfig/internal/ConfigRealtimeHttpClient.java:326-331 | The retry delay is the least non-negative wait that reaches the backoff end. It is 0 exactly when the backoff has passed |
| RealtimeClient.RetryConnection | firebase-config/src/main/java/com/google/firebase/remoteconfig/internal/ConfigRealtimeHttpClient.java:325-333 | With the guard open and retries left, exactly one attempt is scheduled after `RetryDelay(backoffEnd, now)` and one retry is spent; with none left, one "unable to connect" error. So a retry never fires before the backoff end, and fires at once when the backoff has passed. Only the retry budget changes, by at most one |
| RealtimeClient.UpdateBackoff | firebase-config/src/main/java/com/google/firebase/remoteconfig/internal/ConfigRealtimeHttpClient.java:249-260 | A failure raises the count by one and sets the backoff end to the failure time plus `RandomizedBackoffMillis` of the new count and the draw, which is in the jitter window after the failure time. Nothing else changes |
| RealtimeClient.OnRealtimeDisabled | firebase-config/src/main/java/com/google/firebase/remoteconfig/internal/ConfigRealtimeHttpClient.java:381-384 | The server's disable message sets the disabled flag, which closes the guard, and broadcasts one error |
| RealtimeClient.SetBackground | firebase-config/src/main/java/com/google/firebase/remoteconfig/internal/ConfigRealtimeHttpClient.java:359-361 | Going to the background closes the guard. Only the background flag changes |
| RealtimeClient.FinishAttempt | firebase-config/src/main/java/com/google/firebase/remoteconfig/internal/ConfigRealtimeHttpClient.java:451-474 | After every attempt the connection is not running. At most one event follows the close (a retry or one error), and the budget stays in [0, 8] |
| RealtimeClient.BeginStream | firebase-config/src/main/java/com/google/firebase/remoteconfig/internal/ConfigRealtimeHttpClient.java:413-475 | One attempt schedules at most one further attempt and keeps the client valid |
| AttemptProperties.GuardBlocksEveryEntry | firebase-config/src/main/java/com/google/firebase/remoteconfig/internal/ConfigRealtimeHttpClient.java:282-287 | With no listeners, a running connection, realtime disabled or the app in the background, no entry point changes the state or emits anything |
| AttemptProperties.EarlyAttemptIsDeferred | firebase-config/src/main/java/com/google/firebase/remoteconfig/internal/ConfigRealtimeHttpClient.java:418-424 | An attempt before the backoff end does not connect. With retries left, the only change is one spent retry, and exactly one retry is scheduled for the backoff end. With none left, the state is unchanged and exhaustion is reported |
| AttemptProperties.FailedConnectionBacksOff | firebase-config/src/main/java/com/google/firebase/remoteconfig/internal/ConfigRealtimeHttpClient.java:444-464 | No status or a retryable status: the count goes up by one and the backoff end becomes the failure time plus the randomized backoff for the new count, with the draw `nextInt(t)` for its base duration, so it lies in the window after the failure time. Only the count, the backoff end and the budget change. The events are exactly: one I/O error when no status was read (a retryable status is never broadcast), then one retry for the new backoff end, or the exhaustion report |
| AttemptProperties.HealthyStreamReconnects | firebase-config/src/main/java/com/google/firebase/remoteconfig/internal/ConfigRealtimeHttpClient.java:432-464 | A 200 resets the count, the backoff end and the budget of 8, and sets the disabled flag exactly when the server sent the disable message; nothing else changes. When the stream ends the client reconnects at once, spending one retry, unless the server disabled realtime during the stream. A stream that threw is reported first |
| AttemptProperties.AttemptFrame | firebase-config/src/main/java/com/google/firebase/remoteconfig/internal/ConfigRealtimeHttpClient.java:413-475 | No attempt changes the listeners or the background flag, and an attempt leaves realtime disabled exactly when it already was or the server sent the disable message on a stream that opened with 200 |
| AttemptProperties.TerminalStatusIsReported | firebase-config/src/main/java/com/google/firebase/remoteconfig/internal/ConfigRealtimeHttpClient.java:455-473 | Any other status is broadcast once with its code. The state, including the failure count, is unchanged and nothing is scheduled |
| ClientTrace.RunKeepsValid | firebase-config/src/main/java/com/google/firebase/remoteconfig/internal/ConfigRealtimeHttpClient.java:335-357 | Over any run of inputs the retry budget stays within [0, 8], and no connection is left running between steps |
| ClientTrace.DisabledIsPermanent | firebase-config/src/main/java/com/google/firebase/remoteconfig/internal/ConfigRealtimeHttpClient.java:278-287 | Once disabled, the client stays disabled over any run of inputs, never schedules an attempt and emits nothing |
| ClientTrace.BackgroundIsSilent | firebase-config/src/main/java/com/google/firebase/remoteconfig/internal/ConfigRealtimeHttpClient.java:351-356 | While the app stays in the background, the client schedules nothing and broadcasts nothing. This holds through the guard, which requires the foreground; the code's own background check for an exhausted budget (line 351) matters only in a race that is not modelled |
| ClientTrace.ApplySpendsBudget | firebase-config/src/main/java/com/google/firebase/remoteconfig/internal/ConfigRealtimeHttpClient.java:340-350 | Every input except a healthy stream schedules an attempt exactly when it spends one retry |
| ClientTrace.SchedulesSpendBudget | firebase-config/src/main/java/com/google/firebase/remoteconfig/internal/ConfigRealtimeHttpClient.java:340-350 | Between healthy streams, the number of scheduled attempts equals the retries spent. So the budget bounds the reconnection attempts |

## Left out

- Building the connection is not modelled. This covers `createRealtimeConnection`, `getUrl`, `getRealtimeURL`, `setCommonRequestHeaders`, `setRequestParams`, `getInstallationAuthToken` and `getFingerprintHashForPackage`. It is transport plumbing over Android and Java APIs, and the URL template is not part of this model. Any `IOException` it raises is the `NoResponse` outcome.
- `createRequestBody` is not modelled. It is JSON serialisation by a library. The body carries five keys: `project` (the extracted number), `namespace`, `lastKnownVersionNumber`, `appId` and `sdkVersion`.
- `closeRealtimeHttpStream` is not modelled. It only releases connection resources.
- `ConfigAutoFetch.listenForNotifications` is not part of this model. Its effect is summarised by `Listen`: whether the disable message arrived, and whether the read threw. Configuration updates it broadcasts are not modelled.
- Concurrency is not modelled. This covers `synchronized`, the scheduled executor, and the race between the guard check and setting `isHttpConnectionRunning`. It also covers changes to listeners or the background flag while a stream is open, and the unsynchronised read-increment-write of the metadata. Each attempt runs as one atomic step, and external signals fall between steps.
- `Clock` and `java.util.Random` are not modelled. Each clock read and the random source are inputs.
- `ConfigMetadataClient` is not part of this model. `resetRealtimeBackoff` is taken to store a count of 0 and an end time of −1 ms (`NoBackoffEnd`), an instant before any clock reading.
- Exceptions other than `IOException` are not modelled. They would escape `beginRealtimeHttpStream` after its `finally` block.
- The Java `int` failure count would wrap to `Integer.MIN_VALUE` after 2^31 increments from 0. Then `idx − 1` overflows to `Integer.MAX_VALUE` and the table lookup (line 272) throws inside the `finally` block, before the metadata is stored (line 259) and before `retryHttpConnection` (line 464), which ends reconnection. This is not modelled: the count is a `nat`, and at least one minute passes between recorded failures, so the wrap needs thousands of years. Times are unbounded integers rather than `long`.
- `getNumberOfFailedStream`, `getBackoffDate` and `setIsHttpConnectionRunning` are plain accessors and are not modelled. The running flag is set and cleared inside `BeginStream`.
- Adding and removing listeners happens outside this class. It appears as the `ListenersChanged` input.
- `FirebaseAppDistribution` (a stub whose methods return constants) is not modelled. Neither is `FeedbackSender`, which chains asynchronous tasks over a tester API client that is not part of this model.
