/**
 * What one attempt of the caller's operation produces, the lifecycle
 * status of an Action, and the operation itself seen from the retry loop.
 */
module Responses {

  /** The result of one attempt: the flag the retry loop consults and an uninterpreted payload. */
  datatype ActionResponse<T> = ActionResponse(success: bool, result: T)

  /** Lifecycle of an Action: PENDING until its attempt loop finishes, then SUCCESS or FAILED. */
  datatype Status = Pending | Success | Failed

  /**
   * The caller's Retryable, abstracted as an oracle: its k-th call
   * (counting from 0) answers answer(k). `calls` is the number of calls
   * made so far, the state a real operation advances on every invocation.
   */
  class Retryable<T> {
    const answer: nat -> ActionResponse<T>
    var calls: nat

    constructor (answer: nat -> ActionResponse<T>)
      ensures this.answer == answer && calls == 0
    {
      this.answer := answer;
      calls := 0;
    }

    /** One invocation of perform(): the next answer of the oracle. */
    method Perform() returns (r: ActionResponse<T>)
      modifies this`calls
      ensures r == answer(old(calls))
      ensures calls == old(calls) + 1
    {
      r := answer(calls);
      calls := calls + 1;
    }
  }
}
