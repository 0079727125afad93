/** The bridge object: its configuration, the state its run() and its MQTT
    callbacks update, and the specification of what run() and on_disconnect
    do with a given script of transport replies. */
module Bridge {
  import opened Transport
  import opened Retry
  import opened SteadyState
  import opened Routing

  /** The configuration fields the lifecycle and routing code read. */
  datatype Config = Config(
    name: string,
    topic: string,
    paramConv: seq<Conversion>,
    maxReconnects: int,
    maxStartup: int,
    maxLoopReconnect: int)

  /** run() refuses any retry ceiling below 1. */
  predicate ValidCeilings(cfg: Config)
  {
    cfg.maxLoopReconnect >= 1 && cfg.maxStartup >= 1 && cfg.maxReconnects >= 1
  }

  /** What run() does with the replies `script`, starting from the calls
      `trace` already made: the flow it ends with and the last state of the
      loop variables and the transport. */
  function RunSpec(cfg: Config, script: seq<Reply>, trace: seq<Call>): (Flow, LoopState)
  {
    var env := Env(true, script, trace);
    var start := LoopState(0, false, 0, env);
    if !ValidCeilings(cfg) then (Exit(1), start)
    else
      var (flow, connected) := BoundedRetry(Connect, cfg.maxStartup, env);
      if flow != Returned then (flow, start.(env := connected))
      else Loop(cfg.maxLoopReconnect, start.(env := connected))
  }

  /** What on_disconnect does for reason code `rc`. */
  function Disconnected(rc: int, max: int, env: Env): (Flow, Env)
  {
    if rc == 0 then (Returned, env) else BoundedRetry(Reconnect, max, env)
  }

  /** A ceiling below 1 ends the run with status 1 before any call. */
  lemma {:induction false} RunRejectsCeilings(cfg: Config, script: seq<Reply>, trace: seq<Call>)
    requires !ValidCeilings(cfg)
    ensures var (flow, st) := RunSpec(cfg, script, trace);
            flow == Exit(1) && st.env.trace == trace && st.env.script == script
  {
  }

  /** The start-up phase of run(), from the number `f` of connect attempts
      that raise an OSError before the first one that does not: all `max`
      attempts failing exits 1; the attempt after them succeeding exits 1
      too when it was the `max`-th; any other exception escapes. Each failed
      attempt is followed by one wait of 30. */
  lemma {:induction false} RunStartup(cfg: Config, script: seq<Reply>, trace: seq<Call>)
    requires ValidCeilings(cfg)
    ensures var (flow, st) := RunSpec(cfg, script, trace);
            var f := LeadingOSErrors(script);
            var max := cfg.maxStartup;
            (f >= max ==> flow == Exit(1) && st.env.trace == trace + FailedTries(Connect, max))
            && (f < max && f == |script| ==> flow == Suspended)
            && (f < max && f < |script| && script[f].outcome != Success ==>
                  flow == Raised(script[f].outcome) && st.env.trace == trace + FailedTries(Connect, f) + [Connect])
            && (f + 1 == max && f < |script| && script[f].outcome == Success ==>
                  flow == Exit(1) && st.env.trace == trace + FailedTries(Connect, f) + [Connect])
  {
    BoundedRetryOutcome(Connect, cfg.maxStartup, Env(true, script, trace));
  }

  /** When connect attempt f + 1 < max succeeds, run() enters the
      steady-state loop with both counters and the heartbeat at 0, after
      the f failed attempts and the successful one; `running` is still set
      unless a signal arrived during one of those attempts. */
  lemma {:induction false} RunEntersLoop(cfg: Config, script: seq<Reply>, trace: seq<Call>)
    requires ValidCeilings(cfg)
    requires var f := LeadingOSErrors(script);
             f + 1 < cfg.maxStartup && f < |script| && script[f].outcome == Success
    ensures var f := LeadingOSErrors(script);
            RunSpec(cfg, script, trace)
              == Loop(cfg.maxLoopReconnect,
                      LoopState(0, false, 0, Env(Quiet(script[..f + 1]), script[f + 1..],
                                                 trace + FailedTries(Connect, f) + [Connect])))
  {
    var env := Env(true, script, trace);
    var f := LeadingOSErrors(script);
    AttemptsStop(Connect, cfg.maxStartup, 0, env);
    AttemptsStopSignals(Connect, cfg.maxStartup, 0, env);
    var r := Attempts(Connect, cfg.maxStartup, 0, env);
    assert r.env == Env(Quiet(script[..f + 1]), script[f + 1..], trace + FailedTries(Connect, f) + [Connect]);
  }

  /** The steady-state loop is reached, and so a tick made, only after a
      connect attempt k < max succeeded. */
  lemma {:induction false} RunTicksOnlyAfterConnect(cfg: Config, script: seq<Reply>, trace: seq<Call>)
    requires Tick !in trace
    ensures var f := LeadingOSErrors(script);
            Tick in RunSpec(cfg, script, trace).1.env.trace ==>
              ValidCeilings(cfg) && f + 1 < cfg.maxStartup && f < |script| && script[f].outcome == Success
  {
    if ValidCeilings(cfg) {
      var env := Env(true, script, trace);
      var f := LeadingOSErrors(script);
      BoundedRetryOutcome(Connect, cfg.maxStartup, env);
      var (flow, connected) := BoundedRetry(Connect, cfg.maxStartup, env);
      if flow != Returned {
        FailedTriesOnly(Connect, f, Tick);
        FailedTriesOnly(Connect, cfg.maxStartup, Tick);
        assert Tick !in connected.trace;
      }
    }
  }

  /** run() never returns: it ends with exit status 0, 1 or 2, or with an
      exception the start-up loop does not catch, or is still running when
      the script ends; the heartbeat counter is then within 0..65535. */
  lemma {:induction false} RunEndsByExit(cfg: Config, script: seq<Reply>, trace: seq<Call>)
    ensures var (flow, st) := RunSpec(cfg, script, trace);
            (flow == Exit(0) || flow == Exit(1) || flow == Exit(2) || flow == Suspended
             || flow == Raised(OtherError) || flow == Raised(SystemExit))
            && 0 <= st.loopCount <= 65535
  {
    if ValidCeilings(cfg) {
      var env := Env(true, script, trace);
      BoundedRetryOutcome(Connect, cfg.maxStartup, env);
      var (flow, connected) := BoundedRetry(Connect, cfg.maxStartup, env);
      if flow == Returned {
        var start := LoopState(0, false, 0, connected);
        LoopExitStatus(cfg.maxLoopReconnect, start);
        LoopHeartbeatInRange(cfg.maxLoopReconnect, start);
      }
    }
  }

  /** on_disconnect: reason code 0 makes no call; any other code makes at
      most `max` reconnect attempts, stops at the first that returns, waits
      30 after each OSError, and exits 1 once the counter reaches `max`,
      also when the last attempt succeeded. */
  lemma {:induction false} DisconnectOutcome(rc: int, max: int, env: Env)
    ensures rc == 0 ==> Disconnected(rc, max, env) == (Returned, env)
    ensures rc != 0 && max < 1 ==> Disconnected(rc, max, env) == (Exit(1), env)
    ensures rc != 0 && max >= 1 ==>
              var (flow, e) := Disconnected(rc, max, env);
              var f := LeadingOSErrors(env.script);
              flow == (if f >= max then Exit(1)
                       else if f == |env.script| then Suspended
                       else if env.script[f].outcome != Success then Raised(env.script[f].outcome)
                       else if f + 1 >= max then Exit(1)
                       else Returned)
              && e.trace == env.trace + (if f >= max then FailedTries(Reconnect, max)
                                         else if f == |env.script| then FailedTries(Reconnect, f)
                                         else FailedTries(Reconnect, f) + [Reconnect])
  {
    if rc != 0 && max >= 1 {
      BoundedRetryOutcome(Reconnect, max, env);
    }
  }

  /** The bridge object. `script` stands for the transport: the replies its
      future calls will get. */
  class Nofp {
    const config: Config
    var running: bool
    var loopCount: int
    var trace: seq<Call>
    var script: seq<Reply>

    function Snapshot(): Env
      reads this
    {
      Env(running, script, trace)
    }

    constructor (config: Config, script: seq<Reply>)
      ensures this.config == config && this.script == script
      ensures trace == [] && !running && loopCount == 0
    {
      this.config := config;
      this.script := script;
      trace := [];
      running := false;
      loopCount := 0;
    }

    /** signal_handler: clears the cooperative stop flag and nothing else. */
    method SignalHandler()
      modifies this`running
      ensures !running
    {
      running := false;
    }

    /** One transport call: it is recorded, takes the next reply, and the
        signal handler runs if a signal arrived meanwhile. */
    method Invoke(c: Call) returns (o: Outcome)
      requires script != []
      modifies this`running, this`script, this`trace
      ensures Snapshot() == Perform(old(Snapshot()), c)
      ensures o == old(script[0].outcome)
    {
      var reply := script[0];
      script := script[1..];
      trace := trace + [c];
      if reply.signalled {
        SignalHandler();
      }
      o := reply.outcome;
    }

    /** The blocking back-off between attempts. */
    method WaitBackoff()
      modifies this`trace
      ensures trace == old(trace) + [Wait(Backoff)]
    {
      trace := trace + [Wait(Backoff)];
    }

    /** run(): validate the ceilings, connect with bounded retries, drive the
        loop, and choose the exit status. */
    method Run() returns (flow: Flow)
      modifies this`running, this`loopCount, this`script, this`trace
      ensures var (f, st) := RunSpec(config, old(script), old(trace));
              flow == f && Snapshot() == st.env && loopCount == st.loopCount
    {
      running := true;
      loopCount := 0;
      if config.maxLoopReconnect < 1 {
        return Exit(1);
      }
      if config.maxStartup < 1 {
        return Exit(1);
      }
      if config.maxReconnects < 1 {
        return Exit(1);
      }

      flow := RetryCall(Connect, config.maxStartup);
      if flow != Returned {
        return;
      }
      flow := SteadyLoop();
    }

    /** The steady-state loop of run() and the exit status chosen after it. */
    method SteadyLoop() returns (flow: Flow)
      modifies this`running, this`loopCount, this`script, this`trace
      ensures var (f, st) := Loop(config.maxLoopReconnect, LoopState(0, false, old(loopCount), old(Snapshot())));
              flow == f && Snapshot() == st.env && loopCount == st.loopCount
    {
      var reconnectFlag := false;
      var loopReconnectCount := 0;
      ghost var entry := LoopState(0, false, loopCount, Snapshot());
      while running && loopReconnectCount < config.maxLoopReconnect
        invariant Loop(config.maxLoopReconnect, LoopState(loopReconnectCount, reconnectFlag, loopCount, Snapshot()))
               == Loop(config.maxLoopReconnect, entry)
        decreases |script|
      {
        var step;
        step, reconnectFlag, loopReconnectCount := LoopBody(reconnectFlag, loopReconnectCount);
        if step == NoReply {
          return Suspended;
        } else if step == Fatal {
          return Exit(2);
        } else if step == Break {
          break;
        }
      }
      if loopReconnectCount >= config.maxLoopReconnect {
        return Exit(1);
      }
      return Exit(0);
    }

    /** One pass of the loop body of run(): advance the heartbeat, reconnect
        first when the local flag `pending` is set, drive one tick, and
        handle what it raised. `failures` is the loop-reconnect counter. */
    method LoopBody(pending: bool, failures: int) returns (step: Step, pendingAfter: bool, failuresAfter: int)
      modifies this`running, this`loopCount, this`script, this`trace
      ensures (step, LoopState(failuresAfter, pendingAfter, loopCount, Snapshot()))
           == Iteration(LoopState(failures, pending, old(loopCount), old(Snapshot())))
    {
      if loopCount >= 65535 {
        loopCount := 0;
      } else {
        loopCount := loopCount + 1;
      }
      pendingAfter, failuresAfter := pending, failures;
      var o := Success;
      if pending {
        if script == [] {
          return NoReply, pendingAfter, failuresAfter;
        }
        o := Invoke(Reconnect);
        // The source then clears the attribute self.reconnect_flag, which
        // nothing reads; the local flag stays set.
      }
      if o == Success {
        if script == [] {
          return NoReply, pendingAfter, failuresAfter;
        }
        o := Invoke(Tick);
        if o == Success {
          failuresAfter := 0;
        }
      }
      if o == SystemExit {
        step := Break;
      } else if o == Timeout {
        failuresAfter := failuresAfter + 1;
        pendingAfter := true;
        step := Continue;
      } else if o != Success {
        step := Fatal;
      } else {
        step := Continue;
      }
    }

    /** on_disconnect(rc): bounded reconnect attempts after an unexpected
        disconnection. */
    method OnDisconnect(rc: int) returns (flow: Flow)
      modifies this`running, this`script, this`trace
      ensures (flow, Snapshot()) == Disconnected(rc, config.maxReconnects, old(Snapshot()))
    {
      if rc != 0 {
        flow := RetryCall(Reconnect, config.maxReconnects);
      } else {
        flow := Returned;
      }
    }

    /** The bounded retry loop of run() (connect) and on_disconnect
        (reconnect), followed by its ceiling test. */
    method RetryCall(c: Call, max: int) returns (flow: Flow)
      modifies this`running, this`script, this`trace
      ensures (flow, Snapshot()) == BoundedRetry(c, max, old(Snapshot()))
    {
      var count := 0;
      ghost var atStart := Snapshot();
      while count < max
        invariant 0 <= count
        invariant Attempts(c, max, count, Snapshot()) == Attempts(c, max, 0, atStart)
        decreases max - count
      {
        if script == [] {
          return Suspended;
        }
        count := count + 1;
        var o := Invoke(c);
        if o == Success {
          break;
        }
        if IsOSError(o) {
          WaitBackoff();
        } else {
          return Raised(o);
        }
      }
      if count >= max {
        return Exit(1);
      }
      return Returned;
    }

    /** on_message: republish the configured fields of a message on the
        subscribed topic; `payload` is None when UTF-8 or JSON decoding
        fails, and a JSON value other than an object has no fields. Returns
        whether the failure warning was logged. */
    method OnMessage(topic: string, payload: Option<Fields>) returns (warned: bool)
      modifies this`trace
      ensures var (out, w) := Routed(config.name, config.topic, config.paramConv, topic, payload);
              trace == old(trace) + out && warned == w
    {
      warned := false;
      if topic == config.topic {
        match payload
        case None =>
          warned := true;
        case Some(fields) =>
          var conv := config.paramConv;
          var i := 0;
          while i < |conv|
            invariant 0 <= i <= |conv|
            invariant Published(config.name, conv[..i], fields).1
            invariant trace == old(trace) + Published(config.name, conv[..i], fields).0
          {
            var (field, suffix) := conv[i];
            assert conv[..i + 1][..i] == conv[..i];
            if !(field in fields && fields[field].Some?) {
              PublishedStops(config.name, conv, fields, i + 1);
              warned := true;
              return;
            }
            trace := trace + [Publish(TopicFor(config.name, suffix), fields[field].value)];
            i := i + 1;
          }
          assert conv[..i] == conv;
      }
    }
  }
}
