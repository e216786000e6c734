/**
 * _WaitForValueChangeForAction: read a setting, send the gesture, then poll the setting
 * until it differs from the pre-action value or the timeout has elapsed.
 *
 * The fetcher is the environment: `fetch(i)` is what its i-th call returns. Call 0 happens
 * before the gesture is sent; calls 1, 2, ... follow it. The clock is integer milliseconds;
 * the start time is taken right after sending, and each pass of the loop sleeps for one poll
 * period before fetching again.
 */
module Confirmation {

  /** time.sleep(0.03) */
  const PollPeriod: nat := 30

  // Timeouts in milliseconds
  const DefaultTimeout: nat := 200
  const InversionTimeout: nat := 500
  const RunningStateTimeout: nat := 2000

  /** What the wait does, in order. */
  datatype Step = Fetch(value: int) | SendGesture | Sleep(ms: nat)

  /** The loop stops at post-action fetch `k`: the value changed, or the deadline has passed. */
  predicate StopsAt(fetch: nat -> int, timeout: nat, k: nat)
  {
    fetch(k) != fetch(0) || PollPeriod * (k - 1) >= timeout
  }

  /**
   * `fetches` post-action fetches are what the loop performs: it goes on while the value is
   * unchanged and the deadline has not passed, and stops at the first fetch where either fails.
   */
  ghost predicate IsWaitOutcome(fetch: nat -> int, timeout: nat, fetches: nat)
  {
    && fetches >= 1
    && (forall i :: 1 <= i < fetches ==> fetch(i) == fetch(0) && PollPeriod * (i - 1) < timeout)
    && StopsAt(fetch, timeout, fetches)
  }

  /** The number of post-action fetches, searched from fetch `k` on: an independent reference. */
  function StopRead(fetch: nat -> int, timeout: nat, k: nat): (n: nat)
    requires k >= 1
    decreases if PollPeriod * (k - 1) < timeout then timeout - PollPeriod * (k - 1) else 0
  {
    if StopsAt(fetch, timeout, k) then k else StopRead(fetch, timeout, k + 1)
  }

  /** The value the wait returns. */
  function WaitValue(fetch: nat -> int, timeout: nat): int
  {
    fetch(StopRead(fetch, timeout, 1))
  }

  lemma {:induction false} StopReadFrom(fetch: nat -> int, timeout: nat, k: nat)
    requires k >= 1
    requires forall i :: 1 <= i < k ==> fetch(i) == fetch(0) && PollPeriod * (i - 1) < timeout
    ensures IsWaitOutcome(fetch, timeout, StopRead(fetch, timeout, k))
    decreases if PollPeriod * (k - 1) < timeout then timeout - PollPeriod * (k - 1) else 0
  {
    if !StopsAt(fetch, timeout, k) {
      StopReadFrom(fetch, timeout, k + 1);
    }
  }

  /** The reference search finds a wait outcome. */
  lemma StopReadIsWaitOutcome(fetch: nat -> int, timeout: nat)
    ensures IsWaitOutcome(fetch, timeout, StopRead(fetch, timeout, 1))
  {
    StopReadFrom(fetch, timeout, 1);
  }

  /** There is only one wait outcome, so the loop's result is determined by the environment. */
  lemma WaitOutcomeUnique(fetch: nat -> int, timeout: nat, r1: nat, r2: nat)
    requires IsWaitOutcome(fetch, timeout, r1) && IsWaitOutcome(fetch, timeout, r2)
    ensures r1 == r2
  {
    // a smaller outcome is a fetch at which the larger one had to go on
  }

  /** Any wait outcome is the one the reference search finds. */
  lemma WaitOutcomeIsStopRead(fetch: nat -> int, timeout: nat, fetches: nat)
    requires IsWaitOutcome(fetch, timeout, fetches)
    ensures fetches == StopRead(fetch, timeout, 1)
  {
    StopReadIsWaitOutcome(fetch, timeout);
    WaitOutcomeUnique(fetch, timeout, fetches, StopRead(fetch, timeout, 1));
  }

  /**
   * The wait is bounded: the last fetch happens less than one poll period after the
   * deadline, so there are at most ceil(timeout / PollPeriod) re-fetches after the first.
   */
  lemma WaitIsBounded(fetch: nat -> int, timeout: nat, fetches: nat)
    requires IsWaitOutcome(fetch, timeout, fetches)
    ensures PollPeriod * (fetches - 1) < timeout + PollPeriod
    ensures fetches - 1 <= (timeout + PollPeriod - 1) / PollPeriod
  {
    if fetches > 1 {
      assert fetch(fetches - 1) == fetch(0);
    }
  }

  /** An unchanged result means the whole timeout elapsed. */
  lemma UnchangedMeansTimedOut(fetch: nat -> int, timeout: nat, fetches: nat)
    requires IsWaitOutcome(fetch, timeout, fetches)
    requires fetch(fetches) == fetch(0)
    ensures PollPeriod * (fetches - 1) >= timeout
  {
  }

  /**
   * With no writer the wait returns the old value after exactly ceil(timeout / PollPeriod)
   * re-fetches.
   */
  lemma NoWriterReturnsOldValue(fetch: nat -> int, timeout: nat)
    requires forall i :: fetch(i) == fetch(0)
    ensures WaitValue(fetch, timeout) == fetch(0)
    ensures StopRead(fetch, timeout, 1) - 1 == (timeout + PollPeriod - 1) / PollPeriod
  {
    var fetches := StopRead(fetch, timeout, 1);
    StopReadIsWaitOutcome(fetch, timeout);
    WaitIsBounded(fetch, timeout, fetches);
    assert PollPeriod * (fetches - 1) >= timeout;
  }

  /** The steps of a wait that performs `fetches` post-action fetches. */
  function Trace(fetch: nat -> int, fetches: nat): (t: seq<Step>)
    requires fetches >= 1
    ensures |t| == 2 * fetches + 1
    ensures t[0] == Fetch(fetch(0)) && t[1] == SendGesture
    ensures t[|t| - 1] == Fetch(fetch(fetches))
  {
    if fetches == 1 then [Fetch(fetch(0)), SendGesture, Fetch(fetch(1))]
    else Trace(fetch, fetches - 1) + [Sleep(PollPeriod), Fetch(fetch(fetches))]
  }

  /** The gesture is sent exactly once: after the pre-action fetch, before every other one. */
  lemma {:induction false} SentOnceAfterFirstFetch(fetch: nat -> int, fetches: nat, i: nat)
    requires fetches >= 1 && i < 2 * fetches + 1
    ensures Trace(fetch, fetches)[i] == SendGesture <==> i == 1
  {
    if fetches > 1 && i < 2 * fetches - 1 {
      SentOnceAfterFirstFetch(fetch, fetches - 1, i);
    }
  }

  /** _WaitForValueChangeForAction */
  method WaitForValueChangeForAction(fetch: nat -> int, timeout: nat)
    returns (curVal: int, fetches: nat, elapsed: nat, trace: seq<Step>)
    ensures IsWaitOutcome(fetch, timeout, fetches)
    ensures curVal == fetch(fetches) == WaitValue(fetch, timeout)
    ensures elapsed == PollPeriod * (fetches - 1)
    ensures trace == Trace(fetch, fetches)
  {
    var oldVal := fetch(0);
    trace := [Fetch(oldVal), SendGesture];
    elapsed := 0;
    fetches := 1;
    curVal := fetch(1);
    trace := trace + [Fetch(curVal)];
    while curVal == oldVal && elapsed < timeout
      invariant fetches >= 1
      invariant curVal == fetch(fetches)
      invariant elapsed == PollPeriod * (fetches - 1)
      invariant forall i :: 1 <= i < fetches ==> fetch(i) == oldVal && PollPeriod * (i - 1) < timeout
      invariant trace == Trace(fetch, fetches)
      decreases timeout - elapsed
    {
      fetches := fetches + 1;
      curVal := fetch(fetches);
      elapsed := elapsed + PollPeriod;
      trace := trace + [Sleep(PollPeriod), Fetch(curVal)];
    }
    WaitOutcomeIsStopRead(fetch, timeout, fetches);
  }
}
