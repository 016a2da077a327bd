/**
 * A reference description of the attempt loop of an Action, on values.
 * The operation's answers are an oracle `answer`; `first` is the index of
 * the first call the loop makes and `budget` the resolved retry count.
 */
module Attempts {
  import opened Responses

  /** The number of retries a budget actually allows: a negative budget allows none. */
  function Max0(x: int): nat
  {
    if x > 0 then x else 0
  }

  /**
   * How many times the loop performs the operation: once, then once more
   * for every failed answer while budget remains.
   */
  function AttemptCount<T>(answer: nat -> ActionResponse<T>, first: nat, budget: int): (n: nat)
    ensures 1 <= n <= 1 + Max0(budget)
    decreases Max0(budget)
  {
    if answer(first).success || budget <= 0 then 1
    else 1 + AttemptCount(answer, first + 1, budget - 1)
  }

  /**
   * n is how many attempts a loop makes that stops at the first success
   * or once the budget is spent: every attempt before the n-th failed,
   * and the n-th succeeded or used up the last retry.
   */
  ghost predicate IsAttemptCount<T>(answer: nat -> ActionResponse<T>, first: nat, budget: int, n: nat)
  {
    && 1 <= n <= 1 + Max0(budget)
    && (forall i :: first <= i < first + n - 1 ==> !answer(i).success)
    && (answer(first + n - 1).success || n == 1 + Max0(budget))
  }

  /** The answer of the last call the loop makes, which is what the Action keeps. */
  function FinalResponse<T>(answer: nat -> ActionResponse<T>, first: nat, budget: int): ActionResponse<T>
  {
    answer(first + AttemptCount(answer, first, budget) - 1)
  }

  /** The terminal status recorded for a last response. */
  function StatusOf<T>(r: ActionResponse<T>): (s: Status)
    ensures s != Pending
    ensures s == Success <==> r.success
  {
    if r.success then Success else Failed
  }

  /** `k` copies of `x`: the durations of `k` sleeps of the same length. */
  function Repeat<X>(x: X, k: nat): (s: seq<X>)
    ensures |s| == k
    ensures forall i :: 0 <= i < k ==> s[i] == x
  {
    if k == 0 then [] else Repeat(x, k - 1) + [x]
  }

  /** Every attempt before the last one failed. */
  lemma {:induction false} EarlierAttemptsFail<T>(answer: nat -> ActionResponse<T>, first: nat, budget: int, i: nat)
    requires first <= i < first + AttemptCount(answer, first, budget) - 1
    ensures !answer(i).success
    decreases Max0(budget)
  {
    if i > first {
      EarlierAttemptsFail(answer, first + 1, budget - 1, i);
    }
  }

  /** The loop stops on the first success or when the whole budget is spent, and at no other time. */
  lemma {:induction false} StopsOnSuccessOrExhaustion<T>(answer: nat -> ActionResponse<T>, first: nat, budget: int)
    ensures var n := AttemptCount(answer, first, budget);
            answer(first + n - 1).success || n == 1 + Max0(budget)
    decreases Max0(budget)
  {
    if !answer(first).success && budget > 0 {
      StopsOnSuccessOrExhaustion(answer, first + 1, budget - 1);
    }
  }

  /**
   * The reference count is the only number that fits IsAttemptCount:
   * the loop's stopping rule determines how many attempts it makes.
   */
  lemma AttemptCountCharacterized<T>(answer: nat -> ActionResponse<T>, first: nat, budget: int, n: nat)
    ensures IsAttemptCount(answer, first, budget, n) <==> n == AttemptCount(answer, first, budget)
  {
    var m := AttemptCount(answer, first, budget);
    StopsOnSuccessOrExhaustion(answer, first, budget);
    forall i | first <= i < first + m - 1
      ensures !answer(i).success
    {
      EarlierAttemptsFail(answer, first, budget, i);
    }
    if IsAttemptCount(answer, first, budget, n) && n < m {
      EarlierAttemptsFail(answer, first, budget, first + n - 1);
    }
  }

  /** If every answer within the budget fails, the operation is performed 1 + max(budget, 0) times and the Action fails. */
  lemma {:induction false} AllAttemptsFail<T>(answer: nat -> ActionResponse<T>, first: nat, budget: int)
    requires forall i :: first <= i <= first + Max0(budget) ==> !answer(i).success
    ensures AttemptCount(answer, first, budget) == 1 + Max0(budget)
    ensures !FinalResponse(answer, first, budget).success
    ensures StatusOf(FinalResponse(answer, first, budget)) == Failed
    decreases Max0(budget)
  {
    if budget > 0 {
      AllAttemptsFail(answer, first + 1, budget - 1);
    }
  }

  /**
   * If attempt k (counting from 1, within the budget) is the first to
   * succeed, the operation is performed exactly k times and the Action
   * succeeds with that attempt's response.
   */
  lemma {:induction false} FirstSuccessAt<T>(answer: nat -> ActionResponse<T>, first: nat, budget: int, k: nat)
    requires 1 <= k <= 1 + Max0(budget)
    requires answer(first + k - 1).success
    requires forall i :: first <= i < first + k - 1 ==> !answer(i).success
    ensures AttemptCount(answer, first, budget) == k
    ensures FinalResponse(answer, first, budget) == answer(first + k - 1)
    ensures StatusOf(FinalResponse(answer, first, budget)) == Success
    decreases Max0(budget)
  {
    if k > 1 {
      FirstSuccessAt(answer, first + 1, budget - 1, k - 1);
    }
  }

  /** The Action ends in SUCCESS exactly when some answer within the budget succeeds. */
  lemma SucceedsIffSomeAttemptSucceeds<T>(answer: nat -> ActionResponse<T>, first: nat, budget: int)
    ensures StatusOf(FinalResponse(answer, first, budget)) == Success
            <==> exists i :: first <= i <= first + Max0(budget) && answer(i).success
  {
    var n := AttemptCount(answer, first, budget);
    StopsOnSuccessOrExhaustion(answer, first, budget);
    if !answer(first + n - 1).success {
      forall i | first <= i <= first + Max0(budget)
        ensures !answer(i).success
      {
        if i < first + n - 1 {
          EarlierAttemptsFail(answer, first, budget, i);
        }
      }
    }
  }

  /** With no budget left, or a first attempt that succeeds, exactly one attempt is made and no sleep happens. */
  lemma SingleAttempt<T>(answer: nat -> ActionResponse<T>, first: nat, budget: int)
    requires budget <= 0 || answer(first).success
    ensures AttemptCount(answer, first, budget) == 1
    ensures FinalResponse(answer, first, budget) == answer(first)
  {
  }

  /** A run of k + 1 sleeps is a run of k sleeps and one more. */
  lemma RepeatStep<X>(x: X, k: nat)
    ensures Repeat(x, k + 1) == Repeat(x, k) + [x]
  {
  }
}
