/** The steady-state loop of the bridge's run(): while running and the
    loop-reconnect counter is below its ceiling, advance the heartbeat,
    reconnect first if a loop error has been seen, drive one network-loop
    tick, and classify what went wrong. */
module SteadyState {
  import opened Transport

  /** The heartbeat counter's step: it counts up and wraps from 65535 to 0. */
  function Heartbeat(c: int): (r: int)
    ensures 0 <= c ==> 0 <= r <= 65535
    ensures 0 <= c <= 65535 ==> r == (c + 1) % 65536
  {
    if c >= 65535 then 0 else c + 1
  }

  /** The loop's variables: the loop-reconnect counter, the local reconnect
      flag, the heartbeat counter (an instance field) and the transport. */
  datatype LoopState = LoopState(loopReconnects: int, reconnectPending: bool, loopCount: int, env: Env)

  /** How one pass of the loop body ends. */
  datatype Step = Continue | Break | Fatal | NoReply

  /** Outcomes the loop survives without leaving it. */
  predicate Benign(o: Outcome) {
    o == Success || o == Timeout
  }

  /** Outcomes that reach the bare `except:` and exit(2). */
  predicate IsFatal(o: Outcome) {
    o == OSError || o == OtherError
  }

  /** The first `k` replies of `script` are all benign. */
  predicate BenignUpTo(script: seq<Reply>, k: int)
  {
    forall i :: 0 <= i < k && i < |script| ==> Benign(script[i].outcome)
  }

  /** The exception handlers of the loop body: SystemExit breaks the loop,
      a timeout or connection error counts one loop reconnect and sets the
      local reconnect flag, anything else is fatal. */
  function Handle(o: Outcome, s: LoopState): (Step, LoopState)
  {
    if o == SystemExit then (Break, s)
    else if o == Timeout then (Continue, s.(loopReconnects := s.loopReconnects + 1, reconnectPending := true))
    else (Fatal, s)
  }

  /** The tick and what follows it: a tick that returns resets the counter. */
  function TickPhase(s: LoopState): (Step, LoopState)
  {
    if s.env.script == [] then (NoReply, s)
    else
      var o := s.env.script[0].outcome;
      var t := s.(env := Perform(s.env, Tick));
      if o == Success then (Continue, t.(loopReconnects := 0)) else Handle(o, t)
  }

  /** One pass of the loop body. A reconnect that returns is followed by the
      tick; nothing here clears the reconnect flag. */
  function Iteration(s: LoopState): (r: (Step, LoopState))
    ensures |r.1.env.script| <= |s.env.script|
    ensures r.0 != NoReply ==> |r.1.env.script| < |s.env.script|
  {
    var s1 := s.(loopCount := Heartbeat(s.loopCount));
    if !s.reconnectPending then TickPhase(s1)
    else if s1.env.script == [] then (NoReply, s1)
    else
      var o := s1.env.script[0].outcome;
      var s2 := s1.(env := Perform(s1.env, Reconnect));
      if o == Success then TickPhase(s2) else Handle(o, s2)
  }

  /** One pass advances the heartbeat once, never clears the reconnect flag
      and never sets `running`; a signal during its first call clears it. */
  lemma {:induction false} IterationKeeps(s: LoopState)
    ensures var t := Iteration(s).1;
            t.loopCount == Heartbeat(s.loopCount)
            && (s.reconnectPending ==> t.reconnectPending)
            && (t.env.running ==> s.env.running)
            && (s.env.script != [] && s.env.script[0].signalled ==> !t.env.running)
            && (s.env.script != [] ==> |t.env.script| < |s.env.script|)
            && (Iteration(s).0 == Continue ==> t.loopReconnects == 0 || t.loopReconnects == s.loopReconnects + 1)
            && (Iteration(s).0 == Break ==> t.loopReconnects == s.loopReconnects)
  {
  }

  /** One pass consumes a prefix of the replies. */
  lemma {:induction false} IterationSuffix(s: LoopState)
    ensures IsSuffix(Iteration(s).1.env.script, s.env.script)
  {
  }

  /** A pass that continues consumed at least one reply, all of them
      successes or timeouts. If the last was a returning tick, the
      loop-reconnect counter is reset to 0; if it was a timeout or connection
      error, the counter grows by exactly 1 and the reconnect flag is set. */
  lemma {:induction false} IterationContinues(s: LoopState)
    requires Iteration(s).0 == Continue
    ensures var t := Iteration(s).1;
            var n := |s.env.script| - |t.env.script|;
            0 < n <= |s.env.script| && t.env.script == s.env.script[n..]
            && BenignUpTo(s.env.script, n)
            && if s.env.script[n - 1].outcome == Success
               then t.loopReconnects == 0 && t.reconnectPending == s.reconnectPending
               else t.loopReconnects == s.loopReconnects + 1 && t.reconnectPending
  {
  }

  /** A pass that breaks ended on a SystemExit, after benign replies only,
      and left the counter as it was. */
  lemma {:induction false} IterationBreaks(s: LoopState)
    requires Iteration(s).0 == Break
    ensures var t := Iteration(s).1;
            var n := |s.env.script| - |t.env.script|;
            0 < n <= |s.env.script| && t.env.script == s.env.script[n..]
            && BenignUpTo(s.env.script, n - 1) && s.env.script[n - 1].outcome == SystemExit
            && t.loopReconnects == s.loopReconnects
  {
  }

  /** A fatal pass ended on an OSError or another exception that is not a
      timeout or connection error, after benign replies only. */
  lemma {:induction false} IterationFails(s: LoopState)
    requires Iteration(s).0 == Fatal
    ensures var t := Iteration(s).1;
            var n := |s.env.script| - |t.env.script|;
            0 < n <= |s.env.script| && t.env.script == s.env.script[n..]
            && BenignUpTo(s.env.script, n - 1) && IsFatal(s.env.script[n - 1].outcome)
  {
  }

  /** A pass that found the script exhausted consumed only benign replies. */
  lemma {:induction false} IterationStarves(s: LoopState)
    requires Iteration(s).0 == NoReply
    ensures var t := Iteration(s).1;
            var n := |s.env.script| - |t.env.script|;
            0 <= n <= |s.env.script| && t.env.script == s.env.script[n..]
            && BenignUpTo(s.env.script, n)
  {
  }

  /** The calls one pass makes: with the reconnect flag set, a reconnect
      and then (if it returned) a tick; without it, just the tick. */
  lemma {:induction false} IterationCalls(s: LoopState)
    ensures var t := Iteration(s).1.env.trace;
            |s.env.trace| <= |t| && t[..|s.env.trace|] == s.env.trace
            && var added := t[|s.env.trace|..];
               if s.reconnectPending then added == [] || added == [Reconnect] || added == [Reconnect, Tick]
               else added == [] || added == [Tick]
  {
  }

  /** Exit status chosen after the loop (lines 151-155). */
  function ExitCode(loopReconnects: int, max: int): nat
  {
    if loopReconnects >= max then 1 else 0
  }

  /** The loop, from state `s` to the flow it ends with and its last state. */
  function Loop(max: int, s: LoopState): (Flow, LoopState)
    decreases |s.env.script|
  {
    if !(s.env.running && s.loopReconnects < max) then (Exit(ExitCode(s.loopReconnects, max)), s)
    else
      var (step, t) := Iteration(s);
      match step
      case NoReply => (Suspended, t)
      case Fatal => (Exit(2), t)
      case Break => (Exit(ExitCode(t.loopReconnects, max)), t)
      case Continue => Loop(max, t)
  }

  /** Calls at or after position `from` of trace `t`: every tick is
      immediately preceded by a reconnect. */
  predicate TicksFollowReconnects(t: seq<Call>, from: nat)
  {
    forall i :: from <= i < |t| && t[i] == Tick ==> from < i && t[i - 1] == Reconnect
  }

  /** The heartbeat counter never leaves 0..65535. */
  lemma {:induction false} LoopHeartbeatInRange(max: int, s: LoopState)
    requires 0 <= s.loopCount <= 65535
    ensures 0 <= Loop(max, s).1.loopCount <= 65535
    decreases |s.env.script|
  {
    if s.env.running && s.loopReconnects < max {
      var (step, t) := Iteration(s);
      IterationKeeps(s);
      if step == Continue {
        LoopHeartbeatInRange(max, t);
      }
    }
  }

  /** Once the local reconnect flag is set it stays set: the assignment at
      line 134 clears an instance attribute, not this flag. */
  lemma {:induction false} LoopKeepsReconnectPending(max: int, s: LoopState)
    requires s.reconnectPending
    ensures Loop(max, s).1.reconnectPending
    decreases |s.env.script|
  {
    if s.env.running && s.loopReconnects < max {
      var (step, t) := Iteration(s);
      IterationKeeps(s);
      if step == Continue {
        LoopKeepsReconnectPending(max, t);
      }
    }
  }

  /** Trace `b` starts with trace `a`. */
  predicate IsPrefix(a: seq<Call>, b: seq<Call>)
  {
    |a| <= |b| && b[..|a|] == a
  }

  /** A pass with the reconnect flag set only appends to the trace, and a
      tick it makes comes right after its reconnect. */
  lemma {:induction false} PassReconnectsBeforeTick(s: LoopState)
    requires s.reconnectPending
    ensures IsPrefix(s.env.trace, Iteration(s).1.env.trace)
    ensures TicksFollowReconnects(Iteration(s).1.env.trace, |s.env.trace|)
  {
    IterationCalls(s);
    var t := Iteration(s).1.env.trace;
    var from := |s.env.trace|;
    forall i | from <= i < |t| && t[i] == Tick
      ensures from < i && t[i - 1] == Reconnect
    {
      assert t[i] == t[from..][i - from];
      assert t[i - 1] == t[from..][i - 1 - from];
    }
  }

  /** Ticks that follow reconnects from `|a|` in `b`, and from `|b|` in its
      extension `c`, follow reconnects from `|a|` in `c`. */
  lemma {:induction false} TicksFollowReconnectsJoin(a: seq<Call>, b: seq<Call>, c: seq<Call>)
    requires IsPrefix(a, b) && TicksFollowReconnects(b, |a|)
    requires IsPrefix(b, c) && TicksFollowReconnects(c, |b|)
    ensures IsPrefix(a, c) && TicksFollowReconnects(c, |a|)
  {
    assert c[..|a|] == b[..|a|];
    forall i | |a| <= i < |c| && c[i] == Tick
      ensures |a| < i && c[i - 1] == Reconnect
    {
      if i < |b| {
        assert c[i] == b[i] && c[i - 1] == b[i - 1];
      }
    }
  }

  /** With the reconnect flag set, the loop only appends to the trace, and
      every tick it makes comes right after a reconnect. */
  lemma {:induction false} LoopReconnectsBeforeTicks(max: int, s: LoopState)
    requires s.reconnectPending
    ensures IsPrefix(s.env.trace, Loop(max, s).1.env.trace)
    ensures TicksFollowReconnects(Loop(max, s).1.env.trace, |s.env.trace|)
    decreases |s.env.script|
  {
    if !(s.env.running && s.loopReconnects < max) {
      assert Loop(max, s).1 == s;
    } else if Iteration(s).0 == Continue {
      var t := Iteration(s).1;
      assert Loop(max, s) == Loop(max, t);
      IterationKeeps(s);
      PassReconnectsBeforeTick(s);
      LoopReconnectsBeforeTicks(max, t);
      TicksFollowReconnectsJoin(s.env.trace, t.env.trace, Loop(max, t).1.env.trace);
    } else {
      assert Loop(max, s).1 == Iteration(s).1;
      PassReconnectsBeforeTick(s);
    }
  }

  /** `b` is what is left of `a` after dropping some of its first elements. */
  predicate IsSuffix(b: seq<Reply>, a: seq<Reply>)
  {
    |b| <= |a| && b == a[|a| - |b|..]
  }

  lemma {:induction false} SuffixOfSuffix(a: seq<Reply>, b: seq<Reply>, c: seq<Reply>)
    requires IsSuffix(b, a) && IsSuffix(c, b)
    ensures IsSuffix(c, a)
  {
  }

  /** The loop consumes a prefix of its script. */
  lemma {:induction false} LoopConsumesPrefix(max: int, s: LoopState)
    ensures IsSuffix(Loop(max, s).1.env.script, s.env.script)
    decreases |s.env.script|
  {
    if !(s.env.running && s.loopReconnects < max) {
      assert Loop(max, s).1 == s;
    } else if Iteration(s).0 == Continue {
      var t := Iteration(s).1;
      assert Loop(max, s) == Loop(max, t);
      IterationSuffix(s);
      LoopConsumesPrefix(max, t);
      SuffixOfSuffix(s.env.script, t.env.script, Loop(max, t).1.env.script);
    } else {
      assert Loop(max, s).1 == Iteration(s).1;
      IterationSuffix(s);
    }
  }

  /** The exit status after the loop: 2 for a fatal error, otherwise 1 when
      the loop-reconnect counter reached its ceiling and 0 when it did not;
      the counter never overshoots the ceiling. */
  lemma {:induction false} LoopExitStatus(max: int, s: LoopState)
    ensures var (flow, t) := Loop(max, s);
            flow == Exit(2) || flow == Suspended || flow == Exit(ExitCode(t.loopReconnects, max))
    ensures 0 <= s.loopReconnects <= max ==> 0 <= Loop(max, s).1.loopReconnects <= max
    decreases |s.env.script|
  {
    if s.env.running && s.loopReconnects < max {
      var (step, t) := Iteration(s);
      IterationKeeps(s);
      if step == Continue {
        assert Loop(max, s) == Loop(max, t);
        LoopExitStatus(max, t);
      }
    }
  }

  /** Ending `flow` after consuming the first `n` replies of `script`: every
      reply but the last one was a success or a timeout; the flow is exit 2
      exactly when the last one was fatal; a SystemExit as the last one gives
      status 0. */
  predicate Ending(script: seq<Reply>, n: int, flow: Flow)
  {
    0 <= n <= |script|
    && (flow == Exit(2) <==> n > 0 && IsFatal(script[n - 1].outcome))
    && BenignUpTo(script, n - 1)
    && (n > 0 && script[n - 1].outcome == SystemExit ==> flow == Exit(0))
  }

  /** An ending after benign replies is an ending of the longer script. */
  lemma {:induction false} EndingAfterBenign(a: seq<Reply>, n1: nat, n2: int, flow: Flow)
    requires 0 < n1 <= |a| && BenignUpTo(a, n1)
    requires Ending(a[n1..], n2, flow)
    ensures Ending(a, n1 + n2, flow)
  {
    var b := a[n1..];
    forall i | 0 <= i < n1 + n2 - 1
      ensures Benign(a[i].outcome)
    {
      if i >= n1 {
        assert a[i] == b[i - n1];
      }
    }
    if n2 > 0 {
      assert a[n1 + n2 - 1] == b[n2 - 1];
    }
  }

  /** The last pass of the loop, when it does not continue. */
  lemma {:induction false} LastPassEnding(max: int, s: LoopState)
    requires s.env.running && s.loopReconnects < max && Iteration(s).0 != Continue
    ensures Ending(s.env.script, |s.env.script| - |Loop(max, s).1.env.script|, Loop(max, s).0)
  {
    var (step, t) := Iteration(s);
    if step == Break {
      IterationBreaks(s);
      assert Loop(max, s) == (Exit(0), t);
    } else if step == Fatal {
      IterationFails(s);
      assert Loop(max, s) == (Exit(2), t);
    } else {
      IterationStarves(s);
      assert Loop(max, s) == (Suspended, t);
    }
  }

  /** How the loop ends, from the replies it consumed: every reply but the
      last one was a success or a timeout; it exits 2 exactly when the last
      one was fatal (never retried); a SystemExit is absorbed: it breaks the
      loop and the status is 0. */
  lemma {:induction false} LoopEndings(max: int, s: LoopState)
    ensures Ending(s.env.script, |s.env.script| - |Loop(max, s).1.env.script|, Loop(max, s).0)
    decreases |s.env.script|
  {
    if !(s.env.running && s.loopReconnects < max) {
      assert Loop(max, s).1 == s;
    } else if Iteration(s).0 == Continue {
      var t := Iteration(s).1;
      assert Loop(max, s) == Loop(max, t);
      IterationContinues(s);
      LoopEndings(max, t);
      EndingAfterBenign(s.env.script, |s.env.script| - |t.env.script|,
                        |t.env.script| - |Loop(max, t).1.env.script|, Loop(max, t).0);
    } else {
      LastPassEnding(max, s);
    }
  }

  /** A pass leaves `running` set exactly when it was set before and no
      signal arrived during any of the calls the pass made. */
  lemma {:induction false} IterationSignals(s: LoopState)
    ensures var t := Iteration(s).1;
            var n := |s.env.script| - |t.env.script|;
            0 <= n <= |s.env.script|
            && t.env.running == (s.env.running && Quiet(s.env.script[..n]))
  {
    var t := Iteration(s).1;
    var n := |s.env.script| - |t.env.script|;
    IterationSuffix(s);
    IterationKeeps(s);
    if n == 0 {
      assert Quiet(s.env.script[..0]);
    } else if n == 1 {
      QuietCons(s.env.script[..1], []);
    } else {
      var rs := s.env.script[..n];
      assert s.reconnectPending && n == 2;
      QuietCons(rs, rs[1..]);
      QuietCons(rs[1..], []);
    }
  }

  /** A signal delivered during any call of a pass (the reconnect or the tick)
      stops the loop at the end of that pass: nothing more is called, and a
      pass that would have continued ends the loop with the status chosen
      after it. */
  lemma {:induction false} SignalEndsLoop(max: int, s: LoopState)
    requires s.env.running && s.loopReconnects < max
    requires !Iteration(s).1.env.running
    ensures Loop(max, s).1 == Iteration(s).1
    ensures Iteration(s).0 == Continue ==> Loop(max, s).0 == Exit(ExitCode(Iteration(s).1.loopReconnects, max))
  {
  }
}
