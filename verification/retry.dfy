/**
 * The bounded retry around the weather gateway: the first call and up to three
 * retries, waiting 2000 ms times the retry number before each retry.
 */
module Retry {
  import opened Wrappers
  import opened Readings

  const MaxRetries: nat := 3
  const BaseDelayMs: nat := 2000

  /** Why a gateway call failed: no connection, or a reply without a list of readings. */
  datatype FetchError = TransportError | GatewayError

  /**
   * The result of one call of the gateway. `Fetched(None)` stands for a result that is
   * falsy or not an array.
   */
  datatype FetchOutcome = Fetched(payload: Option<seq<Reading>>) | Failed(error: FetchError)

  /** The outcome of the `k`-th call (from 0) the controller makes to the gateway. */
  type Gateway = nat -> FetchOutcome

  /** What a run of the retry loop ends with, and the waits it made, in order. */
  datatype RetryTrace = RetryTrace(outcome: FetchOutcome, waits: seq<nat>)

  /** Sum of the waits, in milliseconds. */
  function TotalWait(waits: seq<nat>): nat {
    if |waits| == 0 then 0 else TotalWait(waits[..|waits| - 1]) + waits[|waits| - 1]
  }

  /**
   * `fetchWeatherDataWithRetry(retryCount)`: call the gateway; on failure, while
   * `retryCount < maxRetries`, wait and recurse with the next count; otherwise rethrow.
   */
  function RetryFrom(gateway: Gateway, retryCount: nat): (t: RetryTrace)
    requires retryCount <= MaxRetries
    ensures retryCount + |t.waits| <= MaxRetries
    decreases MaxRetries - retryCount
  {
    var outcome := gateway(retryCount);
    if outcome.Fetched? || retryCount == MaxRetries then RetryTrace(outcome, [])
    else
      var rest := RetryFrom(gateway, retryCount + 1);
      RetryTrace(rest.outcome, [BaseDelayMs * (retryCount + 1)] + rest.waits)
  }

  /**
   * The calls made from `retryCount` on are those numbered `retryCount` to
   * `retryCount + |waits|`: the outcome is the last of them, every earlier one failed,
   * a failure is returned only after the last retry, and the wait before retry number
   * `k` is `2000 * k`.
   */
  lemma {:induction false} RetryFromCalls(gateway: Gateway, retryCount: nat)
    requires retryCount <= MaxRetries
    ensures var t := RetryFrom(gateway, retryCount);
      && t.outcome == gateway(retryCount + |t.waits|)
      && (forall k :: retryCount <= k < retryCount + |t.waits| ==> gateway(k).Failed?)
      && (t.outcome.Failed? ==> retryCount + |t.waits| == MaxRetries)
      && (forall i :: 0 <= i < |t.waits| ==> t.waits[i] == BaseDelayMs * (retryCount + i + 1))
    decreases MaxRetries - retryCount
  {
    if gateway(retryCount).Failed? && retryCount < MaxRetries {
      RetryFromCalls(gateway, retryCount + 1);
      var rest := RetryFrom(gateway, retryCount + 1);
      var t := RetryFrom(gateway, retryCount);
      assert t.waits == [BaseDelayMs * (retryCount + 1)] + rest.waits;
      forall i | 0 < i < |t.waits|
        ensures t.waits[i] == BaseDelayMs * (retryCount + i + 1)
      {
        assert t.waits[i] == rest.waits[i - 1];
      }
    }
  }

  /**
   * The retry as a loop. At most four calls are made; the first successful outcome is
   * returned at once, and after four failures the last error is.
   */
  method FetchWithRetry(gateway: Gateway) returns (outcome: FetchOutcome, waits: seq<nat>)
    ensures RetryTrace(outcome, waits) == RetryFrom(gateway, 0)
  {
    var retryCount: nat := 0;
    waits := [];
    outcome := gateway(0);
    while outcome.Failed? && retryCount < MaxRetries
      invariant retryCount <= MaxRetries
      invariant outcome == gateway(retryCount)
      invariant RetryFrom(gateway, 0)
        == RetryTrace(RetryFrom(gateway, retryCount).outcome, waits + RetryFrom(gateway, retryCount).waits)
      decreases MaxRetries - retryCount
    {
      RetryStep(gateway, retryCount);
      var rest := RetryFrom(gateway, retryCount + 1).waits;
      assert waits + ([BaseDelayMs * (retryCount + 1)] + rest) == (waits + [BaseDelayMs * (retryCount + 1)]) + rest;
      waits := waits + [BaseDelayMs * (retryCount + 1)];
      retryCount := retryCount + 1;
      outcome := gateway(retryCount);
    }
    assert RetryFrom(gateway, retryCount).waits == [];
    assert waits + [] == waits;
  }

  /** A failed call before the last retry is followed by a wait and the next call. */
  lemma RetryStep(gateway: Gateway, k: nat)
    requires k < MaxRetries && gateway(k).Failed?
    ensures RetryFrom(gateway, k)
      == RetryTrace(RetryFrom(gateway, k + 1).outcome, [BaseDelayMs * (k + 1)] + RetryFrom(gateway, k + 1).waits)
  {
  }

  /** Four failures in a row: the last error is returned after waits of 2, 4 and 6 seconds. */
  lemma AllAttemptsFail(gateway: Gateway)
    requires forall k :: 0 <= k <= MaxRetries ==> gateway(k).Failed?
    ensures RetryFrom(gateway, 0).outcome == gateway(MaxRetries)
    ensures RetryFrom(gateway, 0).waits == [2000, 4000, 6000]
    ensures TotalWait(RetryFrom(gateway, 0).waits) == 12000
  {
    RetryFromCalls(gateway, 0);
    var t := RetryFrom(gateway, 0);
    assert |t.waits| == MaxRetries;
    var w := t.waits;
    assert w[..2] == [2000, 4000] && w[..2][..1] == [2000] && w[..2][..1][..0] == [];
    assert TotalWait(w[..2][..1]) == 2000;
    assert TotalWait(w[..2]) == 6000;
  }

  /** When call `i` is the first to succeed, it is what the retry returns, after `i` waits. */
  lemma FirstSuccessReturned(gateway: Gateway, i: nat)
    requires i <= MaxRetries && gateway(i).Fetched?
    requires forall k :: 0 <= k < i ==> gateway(k).Failed?
    ensures RetryFrom(gateway, 0).outcome == gateway(i)
    ensures |RetryFrom(gateway, 0).waits| == i
  {
    RetryFromCalls(gateway, 0);
  }
}
