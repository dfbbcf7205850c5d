/** Sending with retries: how many attempts are made, and how long the sender sleeps. */
module Retry {
  import opened Prelude
  import opened ExamApi

  /** Attempt `k` of a message, counted from 0, goes through or not. */
  type Outcomes = nat -> bool

  function Power2(k: nat): nat {
    if k == 0 then 1 else 2 * Power2(k - 1)
  }

  function Backoff(attempt: nat): nat {
    Power2(attempt) * 100 * MILLISECOND
  }

  /** Any sender: it answers the next attempt as its outcomes say. */
  class Sender {
    const outcomes: Outcomes
    var attempts: nat

    constructor (outcomes: Outcomes)
      ensures this.outcomes == outcomes && attempts == 0
    {
      this.outcomes := outcomes;
      attempts := 0;
    }

    method Send() returns (ok: bool)
      modifies this`attempts
      ensures attempts == old(attempts) + 1 && ok == outcomes(old(attempts))
    {
      ok := outcomes(attempts);
      attempts := attempts + 1;
    }
  }

  /** Fails its first `failCount` attempts and then succeeds. */
  class FailNSender {
    const failCount: int
    var attempts: nat

    constructor (failCount: int)
      ensures this.failCount == failCount && attempts == 0
    {
      this.failCount := failCount;
      attempts := 0;
    }

    /** Attempt by attempt it answers as `FailsFirst(failCount)`. */
    method Send() returns (ok: bool)
      modifies this`attempts
      ensures attempts == old(attempts) + 1 && ok == FailsFirst(failCount)(old(attempts))
    {
      attempts := attempts + 1;
      ok := !(attempts <= failCount);
    }
  }

  function FailsFirst(failCount: int): Outcomes {
    k => k >= failCount
  }

  /** Sleeping after each of `k` failures, doubling each time. */
  lemma {:induction false} BackoffSum(k: nat)
    ensures SumOfBackoffs(k) == (Power2(k) - 1) * 100 * MILLISECOND
  {
    if k > 0 {
      BackoffSum(k - 1);
    }
  }

  function SumOfBackoffs(k: nat): nat {
    if k == 0 then 0 else SumOfBackoffs(k - 1) + Backoff(k - 1)
  }

  class RetrySender {
    const inner: Sender
    const maxRetries: int
    var slept: nat

    constructor (inner: Sender, maxRetries: int)
      ensures this.inner == inner && this.maxRetries == maxRetries && slept == 0
    {
      this.inner := inner;
      this.maxRetries := maxRetries;
      slept := 0;
    }

    /** Delivers exactly when one of the first maxRetries + 1 attempts would go through; stops at the
        first success; sleeps (2^k - 1) * 100 ms, where k counts the failures followed by an attempt. */
    method Send() returns (ok: bool)
      modifies this`slept, inner`attempts
      ensures maxRetries < 0 ==> !ok && inner.attempts == old(inner.attempts) && slept == old(slept)
      ensures maxRetries >= 0 ==>
                var made := Attempts(inner.outcomes, old(inner.attempts), maxRetries);
                && inner.attempts == old(inner.attempts) + made
                && (ok <==> inner.outcomes(old(inner.attempts) + made - 1))
                && (ok <==> exists k :: old(inner.attempts) <= k <= old(inner.attempts) + maxRetries && inner.outcomes(k))
                && slept == old(slept) + (Power2(made - 1) - 1) * 100 * MILLISECOND
    {
      var attempt := 0;
      ok := false;
      ghost var first := inner.attempts;
      while attempt <= maxRetries
        invariant 0 <= attempt && attempt <= Max(maxRetries + 1, 0)
        invariant inner.attempts == first + attempt
        invariant !ok && forall k :: first <= k < first + attempt ==> !inner.outcomes(k)
        invariant slept == old(slept) + SumOfBackoffs(if attempt <= maxRetries then attempt else Max(maxRetries, 0))
        decreases maxRetries + 1 - attempt
      {
        ok := inner.Send();
        if ok {
          AttemptsMade(inner.outcomes, first, maxRetries, attempt + 1);
          BackoffSum(attempt);
          return;
        }
        if attempt < maxRetries {
          slept := slept + Backoff(attempt);
        }
        attempt := attempt + 1;
      }
      if maxRetries >= 0 {
        AttemptsMade(inner.outcomes, first, maxRetries, maxRetries + 1);
        BackoffSum(maxRetries);
      }
    }
  }

  /** How many attempts a message takes whose next attempt is `from`, with `retries` retries left. */
  function Attempts(outcomes: Outcomes, from: nat, retries: nat): (n: nat)
    ensures 1 <= n <= retries + 1
    decreases retries
  {
    if outcomes(from) || retries == 0 then 1 else 1 + Attempts(outcomes, from + 1, retries - 1)
  }

  /** Attempts stop at the first success or when the retries are used up. */
  lemma {:induction false} AttemptsMade(outcomes: Outcomes, from: nat, retries: nat, n: nat)
    requires 1 <= n <= retries + 1
    requires forall k :: from <= k < from + n - 1 ==> !outcomes(k)
    requires outcomes(from + n - 1) || n == retries + 1
    ensures Attempts(outcomes, from, retries) == n
    decreases retries
  {
    if n > 1 {
      assert !outcomes(from);
      AttemptsMade(outcomes, from + 1, retries - 1, n - 1);
    }
  }

  /** How long a message keeps a sender with that many retries sleeping. */
  function SleepOf(outcomes: Outcomes, from: nat, retries: nat): nat {
    SumOfBackoffs(Attempts(outcomes, from, retries) - 1)
  }

  /** The controller's sender retries three times and so sleeps at most 700 ms per message, and does
      sleep that long when every attempt fails. */
  lemma ThreeRetriesSleep(outcomes: Outcomes, from: nat)
    ensures SleepOf(outcomes, from, 3) <= 700 * MILLISECOND
    ensures (forall k :: from <= k < from + 4 ==> !outcomes(k)) ==> SleepOf(outcomes, from, 3) == 700 * MILLISECOND
  {
    BackoffSum(0); BackoffSum(1); BackoffSum(2); BackoffSum(3);
    assert Power2(1) == 2 && Power2(2) == 4 && Power2(3) == 8;
    if forall k :: from <= k < from + 4 ==> !outcomes(k) {
      AttemptsMade(outcomes, from, 3, 4);
    }
  }

  /** Against a sender that fails its first `failCount` attempts, delivery succeeds exactly when the
      failures do not outnumber the retries, and it takes one attempt more than there are failures. */
  lemma FailsFirstDelivered(failCount: nat, retries: nat)
    ensures Attempts(FailsFirst(failCount), 0, retries) == (if failCount <= retries then failCount else retries) + 1
    ensures FailsFirst(failCount)(Attempts(FailsFirst(failCount), 0, retries) - 1) <==> failCount <= retries
  {
    AttemptsMade(FailsFirst(failCount), 0, retries, (if failCount <= retries then failCount else retries) + 1);
  }
}
