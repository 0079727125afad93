/** The MQTT transport as the bridge's lifecycle code sees it.
    The paho client is not modelled; every call the bridge makes on it
    (connect, reconnect, one network-loop tick) takes its outcome from a
    script supplied by the environment, and every call is recorded in a
    trace together with the back-off waits and the publications. */
module Transport {

  /** How one transport call ends, by the exception class the bridge's
      handlers distinguish. */
  datatype Outcome =
    | Success      // the call returned
    | OSError      // an OSError that is neither a timeout nor a connection error
    | Timeout      // socket.timeout, TimeoutError or ConnectionError (all OSError subclasses)
    | OtherError   // any exception outside the OSError hierarchy
    | SystemExit   // SystemExit, e.g. exit(1) raised by the disconnect callback inside a tick

  /** `except OSError` (connect at start-up, reconnect on disconnect) catches both. */
  predicate IsOSError(o: Outcome) {
    o == OSError || o == Timeout
  }

  /** The environment's answer to one transport call: its outcome, and whether
      SIGINT or SIGTERM was delivered while the call was in progress. */
  datatype Reply = Reply(outcome: Outcome, signalled: bool)

  /** What the bridge does to the outside world, in order. */
  datatype Call =
    | Connect
    | Reconnect
    | Tick
    | Wait(units: nat)
    | Publish(topic: string, payload: string)

  /** Fixed back-off after a failed connect or reconnect attempt. */
  const Backoff: nat := 30

  /** How a piece of bridge code hands control back: it returns normally,
      calls exit(code), lets an exception escape, or is still in progress
      when the environment's script runs out. */
  datatype Flow =
    | Returned
    | Exit(code: nat)
    | Raised(error: Outcome)
    | Suspended

  /** The part of the bridge's state the transport touches: the cooperative
      stop flag, the replies still to come, and the calls made so far. */
  datatype Env = Env(running: bool, script: seq<Reply>, trace: seq<Call>)

  /** One transport call `c`: it is recorded, consumes the next reply, and the
      signal handler clears `running` when a signal arrived during it. */
  function Perform(env: Env, c: Call): Env
    requires env.script != []
  {
    Env(env.running && !env.script[0].signalled, env.script[1..], env.trace + [c])
  }

  /** No signal arrived during any of the replies `rs`. */
  predicate Quiet(rs: seq<Reply>)
  {
    forall i :: 0 <= i < |rs| ==> !rs[i].signalled
  }

  /** A run of replies is quiet when its head is and its tail is. */
  lemma {:induction false} QuietCons(rs: seq<Reply>, tail: seq<Reply>)
    requires rs != [] && rs[1..] == tail
    ensures Quiet(rs) == (!rs[0].signalled && Quiet(tail))
  {
    if !rs[0].signalled && Quiet(tail) {
      forall i | 0 < i < |rs|
        ensures !rs[i].signalled
      {
        assert rs[i] == tail[i - 1];
      }
    }
  }
}
