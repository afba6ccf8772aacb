# Swarm client: retry back-off, connection loop and pid-file guard

A Dafny model of the start-up core of the Jenkins swarm client, which connects a build agent to its master:

- **Retry back-off strategies** (`BackOff`). `NONE`, `LINEAR` and `EXPONENTIAL` map an attempt number, a base interval (`retryInterval`) and a cap (`maxRetryInterval`) to the wait in seconds before the next attempt.
- **Swarm-client capabilities** (`Swarm`). The connection loop uses three capabilities of a `SwarmClient`: one discovery attempt against the master URL, sleeping, and exiting with a status. `SwarmClient` is a class:
  - Discovery is an oracle that gives the outcome of each attempt in turn, and the class logs the outcomes.
  - Sleeping adds to `totalWaitTime` and logs each wait. It reports when the total has passed the sleeper's `waitLimit`; the test double gives up after 1000 seconds.
  - Exiting returns the stop the test double raises instead of ending the process.
- **Connection loop** (`Client.Run`, one pass of it in `Client.Attempt`). The loop attempts discovery repeatedly.
  - A retryable I/O failure either spends the `retry` budget, after which the client exits with status 1 without sleeping, or is followed by the wait the strategy gives for that attempt number.
  - `retry < 0` means no limit.
  - A success ends the loop, and so does any other failure.
- **Pid-file guard** (`PidFile`, `Client.Launch`). If the configured pid file already exists, start-up stops with the dedicated exit status before any discovery. The existing file is left as it was. Otherwise the client writes its pid there, and releasing the file undoes that.
- **Test scenarios** (`ClientTest`). The scenarios from `ClientTest.java` are methods whose postconditions state the content of the messages the tests expect: the message "Exited with status 1 after 450 seconds" becomes the value `Stopped(ExitedAfter(1, 450))`.

The implementation files of the client (`Client.java`, `SwarmClient.java`, `RetryBackOffStrategy.java`) are not part of this model. Their behaviour is this model's own reconstruction from the test class, which fixes:

- `retry = -1` is the unlimited sentinel.
- `R` attempts give `R - 1` sleeps.
- The `k`-th sleep uses attempt number `k`.

No test uses `retry = 0`. In this model, `retry = 0` is a budget of zero attempts, which behaves like one attempt, because discovery happens before the budget is consulted.

## Model

| member | source | states |
|---|---|---|
| BackOff.Delay | client/src/test/java/hudson/plugins/swarm/ClientTest.java:49-65 | Every strategy's wait for attempt number n ≥ 1 is at least the base interval and at most the cap |
| BackOff.DelayFormula | client/src/test/java/hudson/plugins/swarm/ClientTest.java:49-65 | Closed forms of the wait for attempt number n: NONE is the interval; LINEAR is min(interval·n, cap); EXPONENTIAL is min(interval·2^(n-1), cap) |
| BackOff.DoubledIsCappedPower | client/src/test/java/hudson/plugins/swarm/ClientTest.java:61-65 | Doubling that stops at the cap equals min(d·2^k, cap), so exponential back-off never needs an unbounded power |
| BackOff.Schedule | client/src/test/java/hudson/plugins/swarm/ClientTest.java:37-39 | The waits for k failed attempts form a sequence of exactly k waits |
| BackOff.ScheduleAt | client/src/test/java/hudson/plugins/swarm/ClientTest.java:55-59 | The j-th wait (from 0) of a schedule is the strategy's wait for attempt number j + 1 |
| BackOff.NoBackOffTotal | client/src/test/java/hudson/plugins/swarm/ClientTest.java:49-53 | Without back-off, k waits total interval·k (nine waits of 10 total 90) |
| BackOff.LinearTotal | client/src/test/java/hudson/plugins/swarm/ClientTest.java:55-59 | Linear back-off below the cap totals interval·k(k+1)/2 over k waits (10 + 20 + … + 90 = 450) |
| BackOff.ExponentialTotal | client/src/test/java/hudson/plugins/swarm/ClientTest.java:61-65 | Exponential back-off below the cap totals interval·(2^k − 1) over k waits (10 + 20 + 40 + 80 = 150) |
| BackOff.ExponentialDoubles | client/src/test/java/hudson/plugins/swarm/ClientTest.java:61-65 | Each exponential wait is twice the previous one while twice the previous one is within the cap |
| BackOff.ExponentialReachesCap | client/src/test/java/hudson/plugins/swarm/ClientTest.java:61-65 | For every attempt number above the cap, the exponential wait is exactly the cap, however large the attempt number is |
| BackOff.DelayMonotone | client/src/test/java/hudson/plugins/swarm/ClientTest.java:49-65 | No strategy's wait ever shrinks from one attempt number to the next |
| BackOff.ScheduleTotalMonotone | client/src/test/java/hudson/plugins/swarm/ClientTest.java:117-123 | Retrying more never waits less in total, so the total wait only grows toward the sleeper's limit |
| BackOff.SumSnoc | client/src/test/java/hudson/plugins/swarm/ClientTest.java:117-119 | The total after one more wait is the old total plus that wait |
| Swarm.SwarmClient.constructor | client/src/test/java/hudson/plugins/swarm/ClientTest.java:101-105 | A fresh swarm client has made no attempt, slept nowhere, and has a total wait of 0 |
| Swarm.SwarmClient.DiscoverFromMasterUrl | client/src/test/java/hudson/plugins/swarm/ClientTest.java:107-110 | One attempt gets the oracle's outcome for its position and is appended to the attempt log |
| Swarm.SwarmClient.SleepSeconds | client/src/test/java/hudson/plugins/swarm/ClientTest.java:117-123 | Sleeping adds the wait to totalWaitTime and to the log of waits, and reports "running long enough" exactly when the total has passed the limit |
| Swarm.SwarmClient.ExitWithStatus | client/src/test/java/hudson/plugins/swarm/ClientTest.java:112-115 | Exiting reports the given status and the seconds waited so far, and changes nothing |
| PidFile.Acquire | client/src/test/java/hudson/plugins/swarm/ClientTest.java:67-74 | Conflict exactly when a pid file is configured and already exists. An existing entry is never changed. On a conflict nothing changes. Otherwise exactly the pid file is added, holding the pid. Without a pid file nothing changes |
| PidFile.Release | client/src/test/java/hudson/plugins/swarm/ClientTest.java:25-29 | Removes exactly the pid file and keeps every other entry unchanged |
| PidFile.ReleaseUndoesAcquire | client/src/test/java/hudson/plugins/swarm/ClientTest.java:25-29 | Acquiring the pid file and releasing it again leaves the file system as it was |
| Client.RetryBudget | client/src/test/java/hudson/plugins/swarm/ClientTest.java:42-47 | A negative retry means no limit; any other value is a finite budget of that many attempts |
| Client.WithinBudget | client/src/test/java/hudson/plugins/swarm/ClientTest.java:31-40 | However a run ends, a finite budget R bounds its attempts by R (one attempt for a budget of 0) |
| Client.RetryableAbsorbed | client/src/test/java/hudson/plugins/swarm/ClientTest.java:86-97 | A run ends in one of the two stops exactly when each of its attempts failed with the retryable I/O error; with no limit it never ends in the exit |
| Client.Attempt | client/src/test/java/hudson/plugins/swarm/ClientTest.java:107-123 | One pass of the loop. Success and non-retryable failures end it without sleeping. A retryable failure that spends the budget exits with status 1 after the total waited, without sleeping. Otherwise the client sleeps the strategy's wait for this attempt number, and the loop ends only if that wait took the total past the limit |
| Client.Run | client/src/test/java/hudson/plugins/swarm/ClientTest.java:86-97 | At least one attempt, all but the last failing retryably; the waits slept are the strategy's waits for attempts 1, 2, … in order; exit with status 1 only once a finite budget is spent; "running long enough" only at the first wait past the limit (details below) |
| Client.Launch | client/src/test/java/hudson/plugins/swarm/ClientTest.java:67-74 | If the pid file exists, start-up reports the pid-file status with the files and the client untouched (no attempt, no sleep). Otherwise the pid file is acquired and the loop's outcome, attempts and waits are those `Client.Run` promises |
| ClientTest.GivenBackOff | client/src/test/java/hudson/plugins/swarm/ClientTest.java:76-84 | The test options: the given strategy, a budget of 10 attempts, interval 10, cap 120 |
| ClientTest.RunAndVerify | client/src/test/java/hudson/plugins/swarm/ClientTest.java:86-97 | Against an unreachable master, with a finite budget R ≥ 1 (0 acts as 1) whose first R − 1 waits total at most 1000, the run makes R attempts, sleeps exactly the waits for attempts 1…R − 1, then exits with status 1 after their total. With no limit it stops "running long enough" at the first wait that takes the total past 1000 |
| ClientTest.UnreachableRun | client/src/test/java/hudson/plugins/swarm/ClientTest.java:86-97 | The two outcomes of RunAndVerify, derived from how the connection loop ends |
| ClientTest.UnreachableFinite | client/src/test/java/hudson/plugins/swarm/ClientTest.java:31-40 | A finite budget whose waits stay within the limit is spent before the sleeper gives up |
| ClientTest.UnreachableUnlimited | client/src/test/java/hudson/plugins/swarm/ClientTest.java:42-47 | Without a limit the client never exits. It stops only at the first wait that takes the total past the limit |
| ClientTest.FirstWaitPastLimit | client/src/test/java/hudson/plugins/swarm/ClientTest.java:117-123 | If the last wait is the first to take the total past a non-negative limit, the waits before it total at most the limit |
| ClientTest.ShouldNotRetryMoreThanSpecified | client/src/test/java/hudson/plugins/swarm/ClientTest.java:31-40 | With retry 1 the client exits with status 1 after 0 seconds; with retry 5 it exits with status 1 after 40 seconds |
| ClientTest.ShouldKeepRetryingIfThereIsNoLimit | client/src/test/java/hudson/plugins/swarm/ClientTest.java:42-47 | With retry −1 the client never exits. It is stopped "running long enough" after 101 attempts and 1010 seconds |
| ClientTest.ShouldRunWithNoBackoff | client/src/test/java/hudson/plugins/swarm/ClientTest.java:49-53 | NONE: nine sleeps of 10, then the exit with status 1 after 90 seconds |
| ClientTest.ShouldRunWithLinearBackoff | client/src/test/java/hudson/plugins/swarm/ClientTest.java:55-59 | LINEAR: sleeps 10, 20, …, 90, then the exit with status 1 after 450 seconds |
| ClientTest.ShouldRunWithExponentialBackoff | client/src/test/java/hudson/plugins/swarm/ClientTest.java:61-65 | EXPONENTIAL: sleeps 10, 20, 40, 80 and then five waits of 120, then the exit with status 1 after 750 seconds |
| ClientTest.ShouldFailWhenPidfileExists | client/src/test/java/hudson/plugins/swarm/ClientTest.java:67-74 | With the pid file holding "12345", start-up stops with the pid-file status, leaves the file as it was, and makes no attempt and no sleep |

`Client.Run` ends one connection loop. Its postcondition says:

- at least one attempt was made;
- every failed attempt but the last left budget for another one, and, unless the sleeper gave up, the total wait never passed the limit;
- every attempt but the last failed with the retryable error;
- the waits slept are exactly the strategy's waits for attempt numbers 1, 2, … in order: one after every failed attempt but the last, and one after the last too when the sleeper gave up;
- a success yields the candidate, and any other failure yields its reason;
- the exit with status 1 happens only when the finite budget is spent, after exactly max(budget, 1) attempts, and reports the total waited;
- the "running long enough" stop happens only before the budget is spent, at the first wait that takes the total past the limit.

## Left out

- The real file system. The `@Before`/`@After` clean-up of the pid file (ClientTest.java:25-29) and the writing of "12345" are modelled as a map from paths to contents.
- Process exit through `System.exit` and its interception by the `ExpectedSystemExit` rule. Exits and the test double's exceptions are returned values (`Stop`, `LaunchOutcome`), and the message strings become their fields.
- The numeric value of `Client.EXIT_CODE_PID_EXISTS`. ClientTest.java does not show its value, so it stays the named outcome `PidFileExists`.
- Command-line parsing in `Client.main` and network discovery against the master URL. Discovery is an oracle from attempt position to outcome.
- Logging.
- What the client does after connecting: no test exercises it. The loop returns the candidate found.
- Java's 32-bit `int` arithmetic. Waits and totals are unbounded integers. Linear waits are `min(interval·n, cap)`, exponential waits are computed by doubling that stops at the cap, and no overflow is modelled.
- Client.Run: its termination with no retry limit relies on the sleeper's wait limit (the test double's 1000 seconds, or in the real client an external cancellation), because the loop has no other way out. Without a limit, the real loop may run forever, and the model does not state that.
- Client.RetryBudget: `retry = 0` is treated as a budget that ends the run after its first attempt, rather than as an unlimited sentinel; no test in ClientTest.java uses 0, so this is the model's own choice.
- LINEAR at the cap, and EXPONENTIAL for large attempt numbers, are the model's own reconstruction (`min` with the cap); no test in ClientTest.java reaches either case.
