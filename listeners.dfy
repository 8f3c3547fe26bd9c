/** RetryAnalyzer: a failed test is retried while fewer than maxRetryCount
    retries have been granted. */
module Listeners {
  import opened Common
  import Configuration

  /** The answers of n successive retry calls starting from a count. */
  function Answers(count: int, max: int, n: nat): (r: seq<bool>)
    ensures |r| == n
    decreases n
  {
    if n == 0 then []
    else if count < max then [true] + Answers(count + 1, max, n - 1)
    else [false] + Answers(count, max, n - 1)
  }

  /** The count after n successive retry calls. */
  function CountAfter(count: int, max: int, n: nat): (r: int)
    decreases n
  {
    if n == 0 then count
    else if count < max then CountAfter(count + 1, max, n - 1)
    else CountAfter(count, max, n - 1)
  }

  /** How many answers are true. */
  function Granted(answers: seq<bool>): (r: nat) {
    if answers == [] then 0 else (if answers[0] then 1 else 0) + Granted(answers[1..])
  }

  /** Over n calls from a count, exactly min(n, max - count) retries are
      granted (none when the count has reached the maximum), and the count
      grows by that many. */
  lemma {:induction false} GrantedCount(count: int, max: int, n: nat)
    ensures Granted(Answers(count, max, n)) == Min(n, Max(0, max - count))
    ensures CountAfter(count, max, n) == count + Min(n, Max(0, max - count))
    decreases n
  {
    if n > 0 {
      if count < max {
        GrantedCount(count + 1, max, n - 1);
        assert Answers(count, max, n)[1..] == Answers(count + 1, max, n - 1);
      } else {
        GrantedCount(count, max, n - 1);
        assert Answers(count, max, n)[1..] == Answers(count, max, n - 1);
      }
    }
  }

  /** Once a retry is refused every later one is refused. */
  lemma {:induction false} RefusalIsFinal(count: int, max: int, n: nat, i: nat, j: nat)
    requires i <= j < n
    requires !Answers(count, max, n)[i]
    ensures !Answers(count, max, n)[j]
    decreases n
  {
    if i == 0 {
      assert count >= max;
      RefusedForever(count, max, n);
    } else if count < max {
      assert Answers(count, max, n)[1..] == Answers(count + 1, max, n - 1);
      RefusalIsFinal(count + 1, max, n - 1, i - 1, j - 1);
    } else {
      RefusedForever(count, max, n);
    }
  }

  lemma {:induction false} RefusedForever(count: int, max: int, n: nat)
    requires count >= max
    ensures forall k :: 0 <= k < n ==> !Answers(count, max, n)[k]
  {
    if n > 0 {
      RefusedForever(count, max, n - 1);
      assert Answers(count, max, n) == [false] + Answers(count, max, n - 1);
    }
  }

  /** From a fresh analyzer the count never passes a non-negative maximum. */
  lemma CountBounded(max: int, n: nat)
    requires max >= 0
    ensures 0 <= CountAfter(0, max, n) <= max
  {
    GrantedCount(0, max, n);
  }

  class RetryAnalyzer {
    var retryCount: int
    const maxRetryCount: Int32

    /** The count has not passed the maximum, unless no retry was ever granted. */
    ghost predicate Valid()
      reads this
    {
      0 <= retryCount && (retryCount == 0 || retryCount <= maxRetryCount)
    }

    /** The constructor reads retry.count once; the maximum never changes afterwards. */
    constructor (config: Configuration.ConfigManager)
      ensures Valid() && retryCount == 0
      ensures maxRetryCount == config.GetRetryCount()
    {
      retryCount := 0;
      maxRetryCount := config.GetRetryCount();
    }

    /** retry: grant a retry and count it while below the maximum. The count
        stays below 2^31, so the Java increment does not overflow. */
    method Retry() returns (granted: bool)
      requires Valid()
      modifies this`retryCount
      ensures Valid()
      ensures granted <==> old(retryCount) < maxRetryCount
      ensures retryCount == if granted then old(retryCount) + 1 else old(retryCount)
      ensures [granted] == Answers(old(retryCount), maxRetryCount, 1)
      ensures retryCount == CountAfter(old(retryCount), maxRetryCount, 1)
      ensures retryCount < 0x8000_0000
    {
      if retryCount < maxRetryCount {
        retryCount := retryCount + 1;
        return true;
      }
      return false;
    }
  }
}
