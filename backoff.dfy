/**
 * Retry with exponential backoff (`make_request_with_backoff`). The server's answers
 * are given as the status codes of successive requests; every `time.sleep` becomes
 * a delay appended to a list instead of wall-clock time.
 */
module Backoff {

  /**
   * How the retries ended: the 0-based attempt that got status 200; every attempt
   * failing; or the request at `attempt` raising because the server gave no answer
   * (`requests.get` raises, and nothing in the retry loop catches it).
   */
  datatype Outcome = Succeeded(attempt: nat) | GaveUp | Raised(attempt: nat)

  function Pow2(k: nat): (p: nat)
    ensures p >= 1
  {
    if k == 0 then 1 else 2 * Pow2(k - 1)
  }

  /** The delays slept after `failures` failed attempts: `base * 2^i` after the i-th. */
  function Schedule(baseDelay: nat, failures: nat): (s: seq<nat>)
    ensures |s| == failures
    ensures forall i :: 0 <= i < failures ==> s[i] == baseDelay * Pow2(i)
  {
    if failures == 0 then [] else Schedule(baseDelay, failures - 1) + [baseDelay * Pow2(failures - 1)]
  }

  function Sum(s: seq<nat>): nat {
    if s == [] then 0 else Sum(s[..|s| - 1]) + s[|s| - 1]
  }

  /** Altogether the retries wait `base * (2^k - 1)` after k failures. */
  lemma {:induction false} ScheduleTotal(baseDelay: nat, failures: nat)
    ensures Sum(Schedule(baseDelay, failures)) == baseDelay * (Pow2(failures) - 1)
  {
    if failures > 0 {
      var prev := Schedule(baseDelay, failures - 1);
      var p := Pow2(failures - 1);
      var s := prev + [baseDelay * p];
      assert s == Schedule(baseDelay, failures);
      assert s[..|s| - 1] == prev;
      ScheduleTotal(baseDelay, failures - 1);
      assert Sum(s) == baseDelay * (p - 1) + baseDelay * p;
      MulStep(baseDelay, p);
    }
  }

  lemma MulStep(b: nat, p: nat)
    requires p >= 1
    ensures b * (p - 1) + b * p == b * (2 * p - 1)
  {
  }

  /**
   * At most `maxRetries + 1` requests; the first answer with status 200 is returned,
   * and every failure, the last one included, is followed by its backoff delay.
   */
  method RequestWithBackoff(replies: seq<int>, maxRetries: nat, baseDelay: nat)
    returns (outcome: Outcome, delays: seq<nat>)
    ensures outcome.Succeeded? ==>
              && outcome.attempt <= maxRetries && outcome.attempt < |replies|
              && replies[outcome.attempt] == 200
              && (forall j :: 0 <= j < outcome.attempt ==> replies[j] != 200)
              && delays == Schedule(baseDelay, outcome.attempt)
    ensures outcome.GaveUp? ==>
              && maxRetries < |replies|
              && (forall j :: 0 <= j <= maxRetries ==> replies[j] != 200)
              && delays == Schedule(baseDelay, maxRetries + 1)
    ensures outcome.Raised? ==>
              && outcome.attempt == |replies| <= maxRetries
              && (forall j :: 0 <= j < |replies| ==> replies[j] != 200)
              && delays == Schedule(baseDelay, |replies|)
  {
    delays := [];
    var retry := 0;
    while retry < maxRetries + 1
      invariant retry <= maxRetries + 1 && retry <= |replies|
      invariant forall j :: 0 <= j < retry ==> replies[j] != 200
      invariant delays == Schedule(baseDelay, retry)
    {
      if retry == |replies| {
        return Raised(retry), delays;
      }
      if replies[retry] == 200 {
        return Succeeded(retry), delays;
      }
      delays := delays + [baseDelay * Pow2(retry)];
      retry := retry + 1;
    }
    outcome := GaveUp;
  }

  /** Two failures and then a success: two retries, waiting once and then twice the base delay. */
  method TwoFailuresThenSuccess(baseDelay: nat) returns (outcome: Outcome, delays: seq<nat>)
    ensures outcome == Succeeded(2)
    ensures delays == [baseDelay, 2 * baseDelay]
  {
    var replies := [500, 500, 200];
    outcome, delays := RequestWithBackoff(replies, 5, baseDelay);
    assert replies[0] != 200 && replies[1] != 200 && replies[2] == 200;
    assert !outcome.Raised? && !outcome.GaveUp?;
    assert outcome.attempt != 0 && outcome.attempt != 1;
    assert Pow2(1) == 2;
  }
}
