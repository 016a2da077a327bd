/**
 * The retry engine: the Action that drives the attempt loop, and the
 * orchestrator entry points that build one from a configuration and run it.
 * Starting the Action's thread and joining it are modelled as one
 * synchronous call to Run.
 */
module Retryer {
  import opened Responses
  import opened Configuration
  import opened Attempts

  /** Wait between attempts when the configuration leaves it unset. */
  const DefaultWaitTimeMillis: Int64 := 1000

  /** Number of extra attempts when the configuration leaves it unset. */
  const DefaultRetryCount: Int32 := 3

  /** The wait duration Run uses: the configured one if set, otherwise the default. */
  function ResolveWaitDuration(w: Option<Int64>): (r: Int64)
    ensures w.Some? ==> r == w.value
    ensures w.None? ==> r == 1000
  {
    if w.None? then DefaultWaitTimeMillis else w.value
  }

  /** The retry budget Run starts from: the configured one if set, otherwise the default. */
  function ResolveRetryCount(c: Option<Int32>): (r: Int32)
    ensures c.Some? ==> r == c.value
    ensures c.None? ==> r == 3
  {
    if c.None? then DefaultRetryCount else c.value
  }

  /**
   * One retry sequence, with the source's fields; an unset field is None.
   * The number of attempts is the number of calls the operation sees;
   * the sleeps are returned by Run as a ghost record of their lengths.
   */
  class Action<T> {
    var retryable: Retryable?<T>
    var status: Option<Status>
    var waitDuration: Option<Int64>
    var retryCount: Option<Int32>
    var actionResponse: Option<ActionResponse<T>>
    var actionID: Option<string>

    /** A new Action has every field unset. */
    constructor ()
      ensures retryable == null && status == None && actionID == None
      ensures waitDuration == None && retryCount == None && actionResponse == None
    {
      retryable := null;
      status := None;
      waitDuration := None;
      retryCount := None;
      actionResponse := None;
      actionID := None;
    }

    method SetWaitDuration(waitDuration: Option<Int64>)
      modifies this`waitDuration
      ensures this.waitDuration == waitDuration
    {
      this.waitDuration := waitDuration;
    }

    method SetRetryCount(retryCount: Option<Int32>)
      modifies this`retryCount
      ensures this.retryCount == retryCount
    {
      this.retryCount := retryCount;
    }

    method GetActionID() returns (id: Option<string>)
      ensures id == actionID
    {
      id := actionID;
    }

    method SetActionID(actionID: Option<string>)
      modifies this`actionID
      ensures this.actionID == actionID
    {
      this.actionID := actionID;
    }

    /** Associates the operation and marks the Action PENDING. */
    method AddJob(retryable: Retryable<T>)
      modifies this`retryable, this`status
      ensures this.retryable == retryable && status == Some(Pending)
    {
      this.retryable := retryable;
      status := Some(Pending);
    }

    /**
     * The attempt loop. With R the resolved retry count and n the
     * reference AttemptCount from the operation's next call on, Run
     * performs the operation n times, sleeps n - 1 times for the resolved
     * wait, keeps the last answer, leaves R - (n - 1) retries and records
     * SUCCESS or FAILED from the last answer. The status is untouched
     * until the loop has finished.
     */
    method Run() returns (ghost sleeps: seq<Int64>)
      requires retryable != null
      modifies this`waitDuration, this`retryCount, this`actionResponse, this`status, retryable`calls
      ensures waitDuration == Some(ResolveWaitDuration(old(waitDuration)))
      ensures retryable.calls > old(retryable.calls)
      ensures var first, budget := old(retryable.calls), ResolveRetryCount(old(retryCount)) as int;
              var n := retryable.calls - first;
              && IsAttemptCount(retryable.answer, first, budget, n)
              && sleeps == Repeat(waitDuration.value, n - 1)
              && actionResponse == Some(retryable.answer(first + n - 1))
              && retryCount == Some((budget - (n - 1)) as Int32)
      ensures actionResponse.Some? && status == Some(StatusOf(actionResponse.value))
      ensures actionResponse.value.success || retryCount.value <= 0
    {
      var op: Retryable<T> := retryable;
      waitDuration := Some(ResolveWaitDuration(waitDuration));
      retryCount := Some(ResolveRetryCount(retryCount));
      var wait, remaining := waitDuration.value, retryCount.value;
      ghost var first, budget := op.calls, remaining as int;
      var response := op.Perform();
      actionResponse := Some(response);
      sleeps := [];
      ghost var k := 0;
      while !response.success && remaining > 0
        modifies this`retryCount, this`actionResponse, op`calls
        invariant waitDuration == Some(wait) && retryCount == Some(remaining)
        invariant op.calls == first + k + 1
        invariant remaining as int == budget - k
        invariant actionResponse == Some(response) && response == op.answer(first + k)
        invariant sleeps == Repeat(wait, k)
        invariant k <= Max0(budget) && forall i :: first <= i < first + k ==> !op.answer(i).success
        decreases remaining as int
      {
        RepeatStep(wait, k);
        // the wait between attempts: only its length is recorded; an interruption would be swallowed
        sleeps := sleeps + [wait];
        response := op.Perform();
        actionResponse := Some(response);
        remaining := remaining - 1;
        retryCount := Some(remaining);
        k := k + 1;
      }
      status := Some(StatusOf(response));
    }

    /** The most recent response; None until Run has performed the operation. */
    method GetExecutionResponse() returns (r: Option<ActionResponse<T>>)
      ensures r == actionResponse
    {
      r := actionResponse;
    }

    method GetStatus() returns (s: Option<Status>)
      ensures s == status
    {
      s := status;
    }
  }

  /**
   * The part of retry before start(): a new PENDING Action holding the
   * operation and the configuration's id, wait duration and retry count
   * exactly as given, unset ones included, that has not performed anything.
   */
  method Prepare<T>(retryable: Retryable<T>, config: ConfigurationBundle) returns (action: Action<T>)
    ensures fresh(action)
    ensures action.retryable == retryable && action.status == Some(Pending)
    ensures action.actionID == config.id
    ensures action.waitDuration == config.waitDuration && action.retryCount == config.retryCount
    ensures action.actionResponse == None
  {
    action := new Action();
    action.AddJob(retryable);
    action.SetActionID(config.id);
    action.SetWaitDuration(config.waitDuration);
    action.SetRetryCount(config.retryCount);
  }

  /**
   * retry: builds the Action and runs it to completion. The operation is
   * performed AttemptCount times from its next call on, with one sleep of
   * the resolved wait between consecutive attempts, and the Action keeps
   * the configuration's id, the retry count left over, and the last
   * attempt's response and status.
   */
  method Retry<T>(retryable: Retryable<T>, config: ConfigurationBundle)
    returns (action: Action<T>, ghost sleeps: seq<Int64>)
    modifies retryable`calls
    ensures fresh(action) && action.retryable == retryable && action.actionID == config.id
    ensures action.waitDuration == Some(ResolveWaitDuration(config.waitDuration))
    ensures var first, budget := old(retryable.calls), ResolveRetryCount(config.retryCount) as int;
            var n := AttemptCount(retryable.answer, first, budget);
            && retryable.calls == first + n
            && sleeps == Repeat(ResolveWaitDuration(config.waitDuration), n - 1)
            && action.retryCount == Some((budget - (n - 1)) as Int32)
            && action.actionResponse == Some(FinalResponse(retryable.answer, first, budget))
            && action.status == Some(StatusOf(FinalResponse(retryable.answer, first, budget)))
  {
    ghost var first := retryable.calls;
    action := Prepare(retryable, config);
    sleeps := action.Run();
    AttemptCountCharacterized(retryable.answer, first, ResolveRetryCount(config.retryCount) as int, retryable.calls - first);
  }

  /** The blocking facade: the response of the last attempt of a completed retry sequence. */
  method RetryAndGetActionResponse<T>(retryable: Retryable<T>, config: ConfigurationBundle)
    returns (r: Option<ActionResponse<T>>)
    modifies retryable`calls
    ensures var first, budget := old(retryable.calls), ResolveRetryCount(config.retryCount) as int;
            && retryable.calls == first + AttemptCount(retryable.answer, first, budget)
            && r == Some(FinalResponse(retryable.answer, first, budget))
  {
    var action, _ := Retry(retryable, config);
    r := action.GetExecutionResponse();
  }
}
