/**
 * The repository's tests and three edge cases of the attempt loop, run
 * through the orchestrator against concrete operations.
 */
module Scenarios {
  import opened Responses
  import opened Configuration
  import opened Attempts
  import opened Retryer

  /** The failed response used by the tests: success false, result -1. */
  const Failure: ActionResponse<int> := ActionResponse(false, -1)

  /**
   * The number service fails while the shared counter is below three, then
   * draws a number in [0, 100), with success exactly when the draw is not
   * -1; three retries. This test does not reset the counter, so it starts
   * from whatever value `c` the tests run before it left behind.
   */
  method SimpleRetryTest(draw: nat -> int, c: nat) returns (r: Option<ActionResponse<int>>)
    requires forall i :: 0 <= draw(i) < 100
    ensures r.Some? && r.value.success && r.value.result != -1
  {
    var op := new Retryable((i: nat) => if i + c < 3 then Failure else ActionResponse(draw(i) != -1, draw(i)));
    r := RetryAndGetActionResponse(op, ConfigurationBundle(Some("mock-task"), Some(1000), Some(3)));
    FirstSuccessAt(op.answer, 0, 3, if c >= 3 then 1 else 4 - c);
  }

  /**
   * As above, but the service throws on its first three calls and the
   * operation turns the exception into a failed response; three retries
   * succeed on the fourth call with the drawn number.
   */
  method RetryTestWithExceptionsSuccess(draw: nat -> int) returns (r: Option<ActionResponse<int>>, calls: nat)
    requires forall i :: 0 <= draw(i) < 100
    ensures r == Some(ActionResponse(true, draw(3))) && r.value.result != -1
    ensures calls == 4
  {
    var op := new Retryable(i => if i < 3 then Failure else ActionResponse(true, draw(i)));
    r := RetryAndGetActionResponse(op, ConfigurationBundle(Some("mock-task"), Some(2000), Some(3)));
    calls := op.calls;
    FirstSuccessAt(op.answer, 0, 3, 4);
  }

  /** Two retries against a service that fails on its first three calls: three attempts, all failed. */
  method RetryAndFail() returns (r: Option<ActionResponse<int>>, status: Option<Status>, calls: nat, ghost sleeps: seq<Int64>)
    ensures r == Some(Failure) && status == Some(Failed) && calls == 3
    ensures sleeps == [2000, 2000]
  {
    var op := new Retryable(i => if i < 3 then Failure else ActionResponse(true, i));
    var action;
    action, sleeps := Retry(op, ConfigurationBundle(Some("mock-task"), Some(2000), Some(2)));
    r := action.GetExecutionResponse();
    status := action.GetStatus();
    calls := op.calls;
    AllAttemptsFail(op.answer, 0, 2);
  }

  /** A first attempt that succeeds: one call, no sleep, whatever the budget and the wait. */
  method ImmediateSuccess() returns (r: Option<ActionResponse<int>>, status: Option<Status>, calls: nat, ghost sleeps: seq<Int64>)
    ensures r == Some(ActionResponse(true, 42)) && status == Some(Success) && calls == 1
    ensures sleeps == []
  {
    var op := new Retryable(i => ActionResponse(true, 42));
    var action;
    action, sleeps := Retry(op, ConfigurationBundle(None, Some(5000), Some(3)));
    r := action.GetExecutionResponse();
    status := action.GetStatus();
    calls := op.calls;
    SingleAttempt(op.answer, 0, 3);
  }

  /** A retry count of zero: one failed call, no sleep, status FAILED. */
  method NoRetries() returns (r: Option<ActionResponse<int>>, status: Option<Status>, calls: nat, ghost sleeps: seq<Int64>)
    ensures r == Some(Failure) && status == Some(Failed) && calls == 1
    ensures sleeps == []
  {
    var op := new Retryable(i => Failure);
    var action;
    action, sleeps := Retry(op, ConfigurationBundle(None, None, Some(0)));
    r := action.GetExecutionResponse();
    status := action.GetStatus();
    calls := op.calls;
    SingleAttempt(op.answer, 0, 0);
  }

  /** With nothing configured, an operation that always fails is performed four times with three one-second sleeps. */
  method DefaultsApplied() returns (calls: nat, ghost sleeps: seq<Int64>)
    ensures calls == 4 && sleeps == [1000, 1000, 1000]
  {
    var op := new Retryable(i => Failure);
    var action;
    action, sleeps := Retry(op, ConfigurationBundle(None, None, None));
    calls := op.calls;
    AllAttemptsFail(op.answer, 0, 3);
  }
}
