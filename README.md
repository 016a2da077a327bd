# Retryer — a Dafny model of the retry engine

The retryer library runs a caller's fallible operation (a `Retryable`) and
re-attempts it a bounded number of times, with a fixed wait between
attempts. `Retry.retry` builds an `Action` from a `ConfigurationBundle`
(optional id, wait duration in milliseconds, retry count) and starts it.
`retryAndGetActionResponse` runs the same sequence to completion and
returns the last `ActionResponse`. The Action's `run` method fills in the
defaults (1000 ms wait, 3 retries) and performs the operation once. While
the last response failed and retries remain, it sleeps, performs the
operation again and decrements the retry count. It then records SUCCESS or
FAILED from the last response.

This project models that engine and proves what it does:

- `responses.dfy` (`Responses`): `ActionResponse` as a datatype, the `Status` enum, and the caller's operation as an oracle. A `Retryable` whose k-th call answers `answer(k)` and counts its calls.
- `configuration.dfy` (`Configuration`): Java's `Integer`/`Long` as `Int32`/`Int64`, null as `Option.None`, and the configuration datatype.
- `attempts.dfy` (`Attempts`): a reference description of the attempt loop on values. `AttemptCount` is the number of attempts. `IsAttemptCount` is the stopping rule as a predicate. The lemmas prove that the rule fixes the count, and what happens when every attempt fails or the k-th is the first success.
- `retry.dfy` (`Retryer`): the `Action` class with the source's fields, its setters, getters, `AddJob` and `Run` (a `while` loop proved against `IsAttemptCount`). It also holds the orchestrator's `Prepare`/`Retry` and `RetryAndGetActionResponse`.
- `scenarios.dfy` (`Scenarios`): the repository's three tests and three edge cases, run through the orchestrator on concrete operations.

Starting the Action's thread and joining it are modelled as one synchronous call to `Run`. A sleep does not delay anything. `Run` returns a ghost record of the lengths of its sleeps.

The loop body performs the operation and then decrements the retry count (Retry.java lines 96-97), and the model keeps that order. `ConfigurationBundle` accepts any `Long` wait and any `Integer` retry count, so the model takes their whole range. A negative retry count gives one attempt.

## Model

| member | source | states |
|---|---|---|
| `Responses.Retryable.Perform` | src/main/java/retry/Retry.java:88 | one call of `perform()` returns the operation's next answer; each call is counted |
| `Retryer.ResolveWaitDuration` | src/main/java/retry/Retry.java:85 | a set wait duration is used unchanged; an unset one becomes `DEFAULT_WAIT_TIME_MILLIS`, 1000 |
| `Retryer.ResolveRetryCount` | src/main/java/retry/Retry.java:86 | a set retry count is used unchanged; an unset one becomes `DEFAULT_RETRY_COUNT`, 3 |
| `Retryer.Action.constructor` | src/main/java/retry/Retry.java:54-60 | a new Action has no operation, no status, no id, no wait, no retry count and no response |
| `Retryer.Action.SetWaitDuration` | src/main/java/retry/Retry.java:62-64 | stores the given wait duration, null included, and changes nothing else |
| `Retryer.Action.SetRetryCount` | src/main/java/retry/Retry.java:66-68 | stores the given retry count, null included, and changes nothing else |
| `Retryer.Action.GetActionID` | src/main/java/retry/Retry.java:70-72 | returns the stored id |
| `Retryer.Action.SetActionID` | src/main/java/retry/Retry.java:74-76 | stores the given id and changes nothing else |
| `Retryer.Action.AddJob` | src/main/java/retry/Retry.java:78-81 | associates the operation and sets the status to PENDING, touching no other field |
| `Retryer.Action.Run` | src/main/java/retry/Retry.java:84-103 | resolves the defaults; the number n of operation calls satisfies the stopping rule (all earlier attempts failed; the last succeeded or the budget is spent); n - 1 sleeps, each of the resolved wait; the kept response is the last call's; the retry count drops by exactly n - 1; status is SUCCESS iff the last response succeeded, else FAILED; on exit the response succeeded or the retry count is at most 0 |
| `Retryer.Action.GetExecutionResponse` | src/main/java/retry/Retry.java:105-107 | returns the most recent response (none before the first attempt) |
| `Retryer.Action.GetStatus` | src/main/java/retry/Retry.java:109-111 | returns the current status |
| `Retryer.Prepare` | src/main/java/retry/Retry.java:44-49 | before start, the Action is fresh and PENDING and holds the operation and the configuration's id, wait and retry count unchanged, unset fields included; it has no response yet |
| `Retryer.Retry` | src/main/java/retry/Retry.java:44-52 | after the run, the operation has been called exactly AttemptCount times; there were AttemptCount - 1 sleeps of the resolved wait; the Action keeps the configuration's id, a retry count lowered by AttemptCount - 1, and the last attempt's response and status |
| `Retryer.RetryAndGetActionResponse` | src/main/java/retry/Retry.java:28-36 | blocks until the sequence completes and returns the response of its last attempt, after exactly AttemptCount calls |
| `Attempts.AttemptCount` | src/main/java/retry/Retry.java:88-98 | the loop performs the operation at least once and at most 1 + max(R, 0) times |
| `Attempts.StatusOf` | src/main/java/retry/Retry.java:99-101 | the recorded status is never PENDING, and is SUCCESS exactly when the last response succeeded |
| `Attempts.Repeat` | src/main/java/retry/Retry.java:92 | the sleep record of k sleeps has length k and every entry is the same wait |
| `Attempts.EarlierAttemptsFail` | src/main/java/retry/Retry.java:89 | every attempt before the last one failed |
| `Attempts.StopsOnSuccessOrExhaustion` | src/main/java/retry/Retry.java:89 | the last attempt succeeded, or the loop made all 1 + max(R, 0) attempts |
| `Attempts.AttemptCountCharacterized` | src/main/java/retry/Retry.java:88-98 | a number fits the stopping rule if and only if it is AttemptCount; the rule determines the count |
| `Attempts.AllAttemptsFail` | src/main/java/retry/Retry.java:88-101 | if every answer in the window fails, exactly 1 + max(R, 0) attempts are made and the final status is FAILED |
| `Attempts.FirstSuccessAt` | src/main/java/retry/Retry.java:89-101 | if attempt k (k ≤ R + 1) is the first success, exactly k attempts are made; the kept response is the k-th; the status is SUCCESS |
| `Attempts.SucceedsIffSomeAttemptSucceeds` | src/main/java/retry/Retry.java:88-101 | the final status is SUCCESS if and only if some answer among the first 1 + max(R, 0) succeeds |
| `Attempts.SingleAttempt` | src/main/java/retry/Retry.java:89 | a retry count of zero or less, or a first attempt that succeeds, gives exactly one attempt |
| `Scenarios.SimpleRetryTest` | src/test/java/RetryerTest.java:14-39 | whatever value c the shared counter starts from, failures while it is below three and then a draw in [0, 100), with three retries: the returned response succeeds and its result is not -1 |
| `Scenarios.RetryTestWithExceptionsSuccess` | src/test/java/RetryerTest.java:41-70 | three exception-turned failures then success with three retries: four calls, success with the drawn number |
| `Scenarios.RetryAndFail` | src/test/java/RetryerTest.java:72-95 | two retries against three failures: three calls, two 2000 ms sleeps, response (false, -1), status FAILED |
| `Scenarios.ImmediateSuccess` | src/main/java/retry/Retry.java:88-89 | a first attempt that succeeds: one call, no sleep, status SUCCESS, even with a 3-retry budget and a 5000 ms wait |
| `Scenarios.NoRetries` | src/main/java/retry/Retry.java:89 | retry count 0 and a failing operation: one call, no sleep, status FAILED |
| `Scenarios.DefaultsApplied` | src/main/java/retry/Retry.java:85-86 | with nothing configured, an always-failing operation is called four times with three 1000 ms sleeps |

## Left out

- Concurrency: `Action extends Thread`, `start()` and `join()` are one synchronous call to `Run`. So `Retry` returns an Action that has already finished. The model does not capture that the real `retry` returns while the Action may still be PENDING and running, or that Actions run side by side.
- Interruption: an `InterruptedException` from the sleep or from `join` is caught and only logged. The model has no interruption. A sleep is an entry in a ghost record of sleep lengths.
- Wall-clock time: `TimeUnit.MILLISECONDS.sleep` is not modelled as a delay. A wait of zero or less is recorded like any other.
- Logging through SLF4J has no functional effect and is not modelled.
- Exceptions thrown by `perform()` are not modelled. The source does not catch them, so such an exception would end `run` with the status still PENDING. The oracle always returns a response.
- A null `Retryable` does not make `retry` throw to its caller: `addJob(null)` and `start()` succeed, the `NullPointerException` is raised on the Action's own thread at Retry.java line 88, the status stays PENDING, and `retryAndGetActionResponse` returns null after `join`. A null `ConfigurationBundle` makes `retry` itself throw at line 47. The model takes non-null ones (Dafny's non-null reference and datatype types).
- Calling `start()` twice throws `IllegalThreadStateException` in Java. This is not modelled. `Run` may be called again, and its contract still holds from the state it finds.
- The singleton `INSTANCE` and `getInstance()` hold no state. The orchestrator methods are module-level methods.
- `ConfigurationBundle`'s fluent setters and getters are plain field access. The configuration is a datatype with optional fields.
- `ActionResponse.java`, `Retryable.java` and `Status.java` are not part of this model. Their shapes come from their uses in `Retry.java` and the tests: a success flag with a payload, a zero-argument `perform()`, and three states.
- Responses.Retryable.Perform: the operation is an oracle with one answer per call index. Side effects of the operation beyond its answers are not modelled.
- The tests' `Random` draws are a parameter `draw`. The static `counter` they share is the oracle's call index. The two tests that reset it start at 0. `Scenarios.SimpleRetryTest` does not reset it, so its scenario takes the starting value as a parameter `c`.
