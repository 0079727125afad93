# hal-nofp-bridge: connection lifecycle and routing, modelled in Dafny

The bridge subscribes to one MQTT topic. For each configured field of an
inbound JSON message it publishes the converted value to `<name>/<suffix>`.
It also supervises its own MQTT connection. This project models that
supervision, the routing rule and the log-severity mapping of
`hal-nofp-bridge.py`, and proves what they do:

- `run()` validates its three retry ceilings. It then makes bounded connect
  attempts at start-up, waiting 30 after each failure. Next it drives the
  steady-state loop, which has a wrapping heartbeat counter, a loop-reconnect
  counter and a local reconnect flag. Finally it picks exit status 0, 1 or 2.
- `on_disconnect` runs a second bounded reconnect loop when the reason code
  is non-zero.
- `signal_handler` clears `running`.
- `on_message` filters on the topic and publishes one message per conversion
  entry, in order.
- `on_log` maps the client's log level to a logging severity.

The transport is an oracle. The object's `script` field holds the replies
its future transport calls will get. Each reply carries an `Outcome`:

- `Success`
- `OSError`
- `Timeout`, which stands for `socket.timeout`, `TimeoutError` and
  `ConnectionError`
- `OtherError`
- `SystemExit`

Each reply also says whether SIGINT/SIGTERM arrived during that call. Every
call is appended to `trace` (`Connect`, `Reconnect`, `Tick`, `Wait(30)`,
`Publish(topic, payload)`). The way a piece of code hands back control is a
`Flow`:

- `Returned`
- `Exit(code)`
- `Raised(exception)`, for an exception no handler catches
- `Suspended`, when the script ends while the code is still running. The
  model then describes a finite prefix of a run that would go on.

Modules:

- `Transport` (transport.dfy): outcomes, replies, calls, flows, and one
  transport call (`Perform`).
- `Retry` (retry.dfy): the attempt loop shared by start-up and
  `on_disconnect`, with its ceiling test.
- `SteadyState` (steady_state.dfy): one pass of the loop body and the loop.
- `Routing` (routing.dfy): `on_message` and `on_log`.
- `Bridge` (bridge.dfy):
  - the configuration;
  - the specification of `run()` and `on_disconnect`;
  - the class `Nofp`, whose methods change its fields `running`,
    `loopCount`, `trace` and `script`. Each method is proved equal to its
    specification function.

The model follows the code as written, including where it departs from what
it evidently intends:

- The local `reconnect_flag` is never cleared: line 134 assigns
  `self.reconnect_flag`. So after the first loop error, every later pass
  reconnects before it ticks.
- Start-up and `on_disconnect` exit 1 whenever the attempt counter has
  reached the ceiling (lines 118 and 73). This includes the case where the
  last allowed attempt succeeded.
- A `SystemExit` raised during the loop, for example by `exit(1)` inside
  `on_disconnect`, only breaks the loop. The status is then chosen at lines
  151-155, and it is 0, because the counter is below its ceiling whenever a
  pass runs.
- In the loop, only timeouts and connection errors are retried. Any other
  `OSError` reaches the bare `except:` and leads to exit 2. At start-up and
  in `on_disconnect`, every `OSError` is retried.

## Model

| member | source | states |
|---|---|---|
| Retry.AttemptsExhausted | hal-nofp-bridge.py:107-116 | when every attempt within the budget raises an OSError, the loop makes exactly the budgeted attempts, each followed by one Wait(30), and the counter ends at the ceiling |
| Retry.AttemptsStop | hal-nofp-bridge.py:107-116 | when attempt f+1 within the budget does not raise an OSError, the loop stops right after it, with f+1 attempts made. Only the f failed ones are followed by a wait. A success stops the loop normally; any other exception escapes it |
| Retry.AttemptsStopSignals | hal-nofp-bridge.py:78-80 | in the same case, `running` is false afterwards exactly when a signal came during one of the f+1 attempts |
| Retry.AttemptsRunOut | hal-nofp-bridge.py:107-116 | if the replies run out while every attempt so far failed with an OSError, the loop has waited after each failure and stops before the next call |
| Retry.BoundedRetryOutcome | hal-nofp-bridge.py:107-120 | the retry outcome as a closed form in the number f of leading OSErrors. All attempts failing exits 1. The max-th attempt succeeding also exits 1. A non-OSError exception escapes. The caller continues only when attempt f+1 < max succeeded. Gives the exact trace of Connect/Wait calls |
| SteadyState.Heartbeat | hal-nofp-bridge.py:126-129 | the heartbeat step stays in 0..65535 and equals (c + 1) mod 65536 |
| SteadyState.IterationKeeps | hal-nofp-bridge.py:125-136 | one pass advances the heartbeat once and never clears the reconnect flag. It never sets `running`, and a signal during its first call clears it. A pass that continues leaves the counter at 0 or one higher |
| SteadyState.IterationContinues | hal-nofp-bridge.py:131-145 | a pass that continues consumed only successes and timeouts. A returning tick resets the loop-reconnect counter to 0. A timeout or connection error adds exactly 1 and sets the flag |
| SteadyState.IterationBreaks | hal-nofp-bridge.py:131-141 | a pass that breaks ended on a SystemExit after benign replies, and left the counter as it was |
| SteadyState.IterationFails | hal-nofp-bridge.py:131-150 | a fatal pass ended on an OSError that is not a timeout or connection error, or on another exception, after benign replies |
| SteadyState.IterationStarves | hal-nofp-bridge.py:131-136 | a pass that finds no reply left consumed only benign replies |
| SteadyState.IterationCalls | hal-nofp-bridge.py:131-136 | with the flag set, a pass calls Reconnect and then, if that returned, Tick. Without the flag it calls only Tick |
| SteadyState.LoopHeartbeatInRange | hal-nofp-bridge.py:125-129 | the heartbeat counter stays within 0..65535 for the whole loop |
| SteadyState.LoopKeepsReconnectPending | hal-nofp-bridge.py:132-134 | once set, the local reconnect flag is still set when the loop ends |
| SteadyState.PassReconnectsBeforeTick | hal-nofp-bridge.py:132-136 | with the flag set, one pass only appends to the trace, and a tick it makes comes right after its reconnect |
| SteadyState.LoopReconnectsBeforeTicks | hal-nofp-bridge.py:132-136 | with the flag set, the loop only appends to the trace, and every tick it makes comes right after a reconnect |
| SteadyState.LoopConsumesPrefix | hal-nofp-bridge.py:125-150 | the loop consumes the replies in order, a prefix of its script |
| SteadyState.LoopExitStatus | hal-nofp-bridge.py:151-155 | the loop ends with exit 2, with the script exhausted, or with status 1 exactly when the loop-reconnect counter reached its ceiling (else 0). The counter never passes the ceiling |
| SteadyState.LoopEndings | hal-nofp-bridge.py:139-150 | every consumed reply but the last was a success or a timeout. Exit 2 happens exactly when the last one was fatal, and nothing is retried after it. A SystemExit is absorbed and leads to status 0 |
| SteadyState.LastPassEnding | hal-nofp-bridge.py:139-155 | a last pass that breaks gives status 0, a fatal one exit 2, and one that runs out of replies leaves the loop suspended, each with the consumed replies as above |
| SteadyState.IterationSignals | hal-nofp-bridge.py:78-80 | one pass leaves `running` set exactly when it was set and no signal arrived during any call the pass made (the reconnect or the tick) |
| SteadyState.SignalEndsLoop | hal-nofp-bridge.py:125-155 | a pass during whose calls a signal arrived, the reconnect or the tick, is the last one: the loop test at line 125 stops it with no further call, and a pass that would have continued ends with the status chosen at lines 151-155 |
| Routing.PublishedStops | hal-nofp-bridge.py:50-56 | after an entry fails to convert, the later entries publish nothing |
| Routing.PublishedInOrder | hal-nofp-bridge.py:50-54 | one publication per entry, in list order, to name/suffix with that entry's converted value, up to the first entry that fails. The result reports whether all entries converted |
| Routing.MessageRouting | hal-nofp-bridge.py:46-57 | another topic publishes nothing and logs nothing. A payload that fails UTF-8 or JSON decoding publishes nothing and logs a warning. Otherwise the publications are as above, and a warning is logged exactly when an entry failed |
| Routing.LogSeverity | hal-nofp-bridge.py:30-40 | DEBUG maps to debug and INFO to info. NOTICE and WARNING, and only they, map to warning. Every other level maps to error |
| Routing.LogLine | hal-nofp-bridge.py:30-40 | the emitted line has the mapped severity and ends with the client's message |
| Bridge.RunRejectsCeilings | hal-nofp-bridge.py:97-105 | a retry ceiling below 1 ends run() with exit 1 before any call |
| Bridge.RunStartup | hal-nofp-bridge.py:107-122 | start-up as a closed form in the number f of leading OSErrors. All max attempts failing exits 1 after max connect+wait pairs. Attempt f+1 == max succeeding still exits 1. Another exception escapes |
| Bridge.RunEntersLoop | hal-nofp-bridge.py:107-125 | attempt f+1 < max succeeding enters the loop with both counters at 0, the heartbeat at 0, the flag clear, and the trace and remaining replies given exactly. `running` is still set unless a signal came during start-up |
| Bridge.RunTicksOnlyAfterConnect | hal-nofp-bridge.py:107-125 | a tick is made only if the ceilings are valid and connect attempt f+1 < max succeeded |
| Bridge.RunEndsByExit | hal-nofp-bridge.py:82-155 | run() never returns normally. It ends with exit 0, 1 or 2, with an OtherError or SystemExit escaping start-up, or suspended. The heartbeat is then within 0..65535 |
| Bridge.DisconnectOutcome | hal-nofp-bridge.py:59-75 | reason code 0 makes no call and returns. Any other code makes at most max reconnect attempts, waits 30 after each OSError, and exits 1 when the counter reaches max, even after a final success |
| Bridge.Nofp.SignalHandler | hal-nofp-bridge.py:78-80 | clears `running` and changes nothing else |
| Bridge.Nofp.RetryCall | hal-nofp-bridge.py:107-120 | the attempt loop and ceiling test on the object's state equal `Retry.BoundedRetry` |
| Bridge.Nofp.Run | hal-nofp-bridge.py:82-155 | the flow and the new running/heartbeat/trace/script equal `Bridge.RunSpec` of the old script and trace |
| Bridge.Nofp.SteadyLoop | hal-nofp-bridge.py:123-155 | the loop with both counters starting at 0, and the exit status chosen after it, equal `SteadyState.Loop` |
| Bridge.Nofp.LoopBody | hal-nofp-bridge.py:126-150 | one pass on the object's state equals `SteadyState.Iteration` |
| Bridge.Nofp.OnDisconnect | hal-nofp-bridge.py:59-75 | the flow and the new state equal `Bridge.Disconnected` |
| Bridge.Nofp.OnMessage | hal-nofp-bridge.py:46-57 | appends to the trace exactly the publications of `Routing.Routed`. It touches no counter and not `running` (its frame is the trace only) |

## Left out

- The paho MQTT client (connect, reconnect, loop, publish, subscribe) is a
  foreign library. Its calls are replies from a script. The broker address,
  port and timeout passed to `connect` are not recorded.
- `on_connect` (lines 42-44) is not part of this model. It logs the result
  code and subscribes to the configured topic.
- `float`, `*= 1000` and `format(val_f, ".0f")` (lines 51-53) are
  floating-point arithmetic and formatting. The decoded payload maps each
  field to its converted text, or to None where conversion raises.
- JSON and UTF-8 decoding (line 49) are library calls. A payload is `None`
  only when UTF-8 or JSON decoding fails. A payload that decodes to a JSON
  object is its field map. One that decodes to any other JSON value (a
  number, a list, a string) is the empty field map `Some(map[])`: with no
  conversion entries nothing is indexed and no warning is logged, and
  otherwise indexing it at line 51 raises, exactly as a missing field does.
- Publish never fails in the model. paho's own `ValueError` on malformed
  topics is not modelled.
- Logging text (except `on_log`'s lines) is not modelled. Neither are:
  - the logging setup (lines 91-96),
  - signal registration (lines 88-89),
  - `atexit.register(self.disconnect)` (line 111),
  - the unused `modbus_check_count` (line 86),
  - configuration loading (lines 158-163).
- `Event.wait(30)` is recorded as `Wait(30)`. No time passes.
- Signals are not asynchronous. A signal is a flag on the reply of the call
  during which it arrived. Since only the loop test reads `running`, this is
  the same as a signal between loop passes.
- `Bridge.Nofp.LoopBody` models line 145 as if it logged and carried on. As
  written, adding an int to a str raises TypeError out of the handler, so
  the first loop timeout would crash `run()`.
- `Bridge.Nofp.LoopBody` models lines 146-150 as exit 2. As written,
  `logging.logging` raises AttributeError before `exit(2)`, so the process
  would end by an uncaught exception.
- `Bridge.RunEndsByExit` and `Bridge.DisconnectOutcome` report an exception
  escaping `run()` or `on_disconnect`, respectively, as `Raised(e)`. They do
  not fold this into the interpreter's exit status.
- `on_disconnect` is not composed with the loop. paho calls it from inside
  its own calls. Its `exit(1)` reaches `run()` as a `SystemExit` reply.
- The instance attribute `self.reconnect_flag` written at line 134 is not a
  field, because nothing reads it.
