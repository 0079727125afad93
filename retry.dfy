/** The bounded retry loop the bridge uses twice: for the connect attempts at
    start-up and for the reconnect attempts after an unexpected disconnect.
    Both increment an attempt counter before the call, stop at the first call
    that returns, wait the fixed back-off after every OSError, and afterwards
    exit(1) when the counter has reached the ceiling. */
module Retry {
  import opened Transport

  /** How the attempts loop ended: normally (a call returned, or the loop test
      failed), by an exception the loop does not catch, or with the script
      exhausted before the next call. */
  datatype RetryEnd = Stopped | Escaped(error: Outcome) | OutOfScript

  datatype RetryResult = RetryResult(count: int, end: RetryEnd, env: Env)

  /** The attempts loop from counter value `count` on. */
  function Attempts(call: Call, max: int, count: int, env: Env): RetryResult
    decreases max - count
  {
    if count >= max then RetryResult(count, Stopped, env)
    else if env.script == [] then RetryResult(count, OutOfScript, env)
    else
      var o := env.script[0].outcome;
      var after := Perform(env, call);
      if o == Success then RetryResult(count + 1, Stopped, after)
      else if IsOSError(o) then
        Attempts(call, max, count + 1, after.(trace := after.trace + [Wait(Backoff)]))
      else RetryResult(count + 1, Escaped(o), after)
  }

  /** The attempts loop followed by the ceiling test. */
  function BoundedRetry(call: Call, max: int, env: Env): (Flow, Env)
  {
    var r := Attempts(call, max, 0, env);
    match r.end
    case OutOfScript => (Suspended, r.env)
    case Escaped(e) => (Raised(e), r.env)
    case Stopped => (if r.count >= max then Exit(1) else Returned, r.env)
  }

  /** Number of replies at the head of `script` that are OSErrors: the calls
      that would fail before the first one that does not. */
  function LeadingOSErrors(script: seq<Reply>): (n: nat)
    ensures n <= |script|
    ensures forall i :: 0 <= i < n ==> IsOSError(script[i].outcome)
    ensures n < |script| ==> !IsOSError(script[n].outcome)
  {
    if script == [] || !IsOSError(script[0].outcome) then 0
    else 1 + LeadingOSErrors(script[1..])
  }

  /** `n` failed attempts: the call, then the back-off, `n` times. */
  function FailedTries(call: Call, n: nat): seq<Call>
  {
    if n == 0 then [] else [call, Wait(Backoff)] + FailedTries(call, n - 1)
  }

  lemma {:induction false} FailedTriesOnly(call: Call, n: nat, c: Call)
    requires c != call && c != Wait(Backoff)
    ensures c !in FailedTries(call, n)
  {
    if n > 0 {
      FailedTriesOnly(call, n - 1, c);
    }
  }

  /** All `max - count` remaining attempts fail: the loop ends by its test
      with the counter at the ceiling, each attempt followed by one wait. */
  lemma {:induction false} AttemptsExhausted(call: Call, max: int, count: int, env: Env)
    requires count <= max && max - count <= LeadingOSErrors(env.script)
    ensures var r := Attempts(call, max, count, env);
            r.count == max && r.end == Stopped
            && r.env.trace == env.trace + FailedTries(call, max - count)
            && r.env.script == env.script[max - count..]
    decreases max - count
  {
    if count < max {
      var after := Perform(env, call);
      var next := after.(trace := after.trace + [Wait(Backoff)]);
      assert IsOSError(env.script[0].outcome) && next.script == env.script[1..];
      assert Attempts(call, max, count, env) == Attempts(call, max, count + 1, next);
      assert LeadingOSErrors(env.script) == 1 + LeadingOSErrors(next.script);
      AttemptsExhausted(call, max, count + 1, next);
      var rest := FailedTries(call, max - count - 1);
      assert env.trace + FailedTries(call, max - count) == next.trace + rest by {
        assert FailedTries(call, max - count) == [call, Wait(Backoff)] + rest;
        assert next.trace == env.trace + [call, Wait(Backoff)];
      }
      assert next.script[max - count - 1..] == env.script[max - count..];
    }
  }

  /** The attempt after `f` failed ones gets a reply that is not an OSError,
      within the budget: the loop stops right there, having made f + 1
      attempts, and only the failed ones are followed by a wait. */
  lemma {:induction false} AttemptsStop(call: Call, max: int, count: int, env: Env)
    requires LeadingOSErrors(env.script) < max - count
    requires LeadingOSErrors(env.script) < |env.script|
    ensures var r := Attempts(call, max, count, env);
            var f := LeadingOSErrors(env.script);
            r.count == count + f + 1
            && r.end == (if env.script[f].outcome == Success then Stopped
                         else Escaped(env.script[f].outcome))
            && r.env.trace == env.trace + FailedTries(call, f) + [call]
            && r.env.script == env.script[f + 1..]
    decreases max - count
  {
    var f := LeadingOSErrors(env.script);
    if f > 0 {
      var after := Perform(env, call);
      var next := after.(trace := after.trace + [Wait(Backoff)]);
      assert f == 1 + LeadingOSErrors(next.script);
      AttemptsStop(call, max, count + 1, next);
      assert next.script[f..] == env.script[f + 1..];
      assert next.script[f - 1] == env.script[f];
    }
  }

  /** In the same case, `running` is cleared exactly when a signal arrived
      during one of the f + 1 attempts. */
  lemma {:induction false} AttemptsStopSignals(call: Call, max: int, count: int, env: Env)
    requires LeadingOSErrors(env.script) < max - count
    requires LeadingOSErrors(env.script) < |env.script|
    ensures var f := LeadingOSErrors(env.script);
            Attempts(call, max, count, env).env.running == (env.running && Quiet(env.script[..f + 1]))
    decreases max - count
  {
    var f := LeadingOSErrors(env.script);
    var after := Perform(env, call);
    if f > 0 {
      var next := after.(trace := after.trace + [Wait(Backoff)]);
      assert Attempts(call, max, count, env) == Attempts(call, max, count + 1, next);
      assert f == 1 + LeadingOSErrors(next.script);
      AttemptsStopSignals(call, max, count + 1, next);
      QuietCons(env.script[..f + 1], next.script[..f]);
    } else {
      assert Attempts(call, max, count, env).env == after;
      QuietCons(env.script[..1], []);
    }
  }

  /** The script runs out while every reply so far was an OSError and budget
      remains: the model stops before the next call. */
  lemma {:induction false} AttemptsRunOut(call: Call, max: int, count: int, env: Env)
    requires LeadingOSErrors(env.script) < max - count
    requires LeadingOSErrors(env.script) == |env.script|
    ensures var r := Attempts(call, max, count, env);
            r.count == count + |env.script| && r.end == OutOfScript
            && r.env.trace == env.trace + FailedTries(call, |env.script|)
    decreases max - count
  {
    if env.script != [] {
      var after := Perform(env, call);
      var next := after.(trace := after.trace + [Wait(Backoff)]);
      assert |env.script| == 1 + LeadingOSErrors(next.script);
      AttemptsRunOut(call, max, count + 1, next);
    }
  }

  /** The outcome of a bounded retry with ceiling `max` >= 1, from the number
      `f` of leading OSErrors: exit(1) when all `max` attempts failed, and
      also when the attempt that succeeded was the `max`-th one; the caller
      carries on only when attempt f + 1 < max succeeded. */
  lemma {:induction false} BoundedRetryOutcome(call: Call, max: int, env: Env)
    requires max >= 1
    ensures var (flow, e) := BoundedRetry(call, max, env);
            var f := LeadingOSErrors(env.script);
            flow == (if f >= max then Exit(1)
                     else if f == |env.script| then Suspended
                     else if env.script[f].outcome != Success then Raised(env.script[f].outcome)
                     else if f + 1 >= max then Exit(1)
                     else Returned)
            && e.trace == env.trace + (if f >= max then FailedTries(call, max)
                                       else if f == |env.script| then FailedTries(call, f)
                                       else FailedTries(call, f) + [call])
  {
    var f := LeadingOSErrors(env.script);
    if f >= max {
      AttemptsExhausted(call, max, 0, env);
    } else if f == |env.script| {
      AttemptsRunOut(call, max, 0, env);
    } else {
      AttemptsStop(call, max, 0, env);
    }
  }
}
