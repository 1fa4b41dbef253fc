# Syslog drain sink

The model covers the syslog drain sink of Loggregator's Doppler. There is one
sink for each pair of application id and drain URL. The sink forwards that
application's log messages to one remote syslog endpoint.

While the sink runs, `SyslogSink.Run` performs these steps:

1. A goroutine filters the incoming envelopes and passes on only the
   LogMessage ones.
2. The filtered envelopes go into a truncating buffer, which counts the
   messages it drops.
3. The sink then loops:
   - it waits for a backoff timer;
   - if it is not connected, it dials the drain, and on failure calls the
     error handler and starts the loop again;
   - it waits for a message from the buffer and adds the buffer's dropped
     count to its own total;
   - it writes the message, and resets or raises its retry counter depending
     on whether the write succeeded.
4. `Disconnect` closes a once-guarded channel, and `Run` returns at the next
   `select`.
5. A closed buffer also ends the run.
6. On every way out of `Run`, the deferred `Close` of the writer runs.

The project has these modules:

- `Int64` (`int64.dfy`): Go's `int64`, and the wrap-around of
  `atomic.AddInt64`.
- `Events` (`events.dfy`): the envelope and log-message values the sink reads.
- `SyslogWrite` (`syslog_write.dfy`):
  - the envelope filter of the goroutine, as a function `Forwarded` over
    sequences;
  - `messagePriorityValue`;
  - the arguments of one `Write` call.
- `SinkLoop` (`sink_loop.dfy`): the main loop as a state machine.
  - The record `Machine` holds the loop's locals `numberOfTries` and
    `connected`, its position in the loop, the sink's fields, and how far it
    has read.
  - The state machine is driven by a finite script of `Event`s. These are the
    answers of the timer, the writer's `Connect` and `Write` and the buffer,
    and the calls that other goroutines make into the sink (`Disconnect`,
    `UpdateDroppedMessageCount`).
  - `Exec` runs the machine until the loop returns, the script ends, or the
    next event cannot happen where the loop is waiting.
- `Syslog` (`syslog_sink.dfy`): the class `SyslogSink`.
  - Its fields are the sink's state plus a record of the calls it has made on
    its collaborators.
  - `Run` is a `while` loop over the script, written as in the Go code and
    proved to end in the state that `SinkLoop.Exec` gives.
  - The other methods update the fields in place.
- `SinkProperties` (`sink_properties.dfy`): what one event does, what a whole
  run guarantees, and two scenarios: a drain that refuses every connection,
  and a drain that accepts everything.

## Model

| member | source | states |
|---|---|---|
| Int64.Wrap | src/doppler/sinks/syslog/syslog_sink.go:115 | 64-bit truncation leaves any value in the `int64` range unchanged |
| Int64.WrapOfWrappedSum | src/doppler/sinks/syslog/syslog_sink.go:182 | adding to a wrapped value and wrapping again gives the same result as wrapping the exact sum once, so repeated `atomic.AddInt64` calls compose |
| Int64.WrapCongruent | src/doppler/sinks/syslog/syslog_sink.go:115 | integers that agree modulo 2^64 wrap to the same `int64` |
| Int64.AddInt64 | src/doppler/sinks/syslog/syslog_sink.go:182 | `atomic.AddInt64` returns the exact sum when it fits in 64 bits, and adding 0 changes nothing |
| Events.MessageTypeOf | src/doppler/sinks/syslog/syslog_sink.go:163-168 | the message-type enum decodes its wire value 1 to OUT and 2 to ERR; every other value is unrecognized and keeps its value |
| SyslogWrite.MessagePriorityValue | src/doppler/sinks/syslog/syslog_sink.go:162-171 | 14 for OUT, 11 for ERR, -1 for any other message type |
| SyslogWrite.PriorityOfWireValue | src/doppler/sinks/syslog/syslog_sink.go:162-171 | by wire value: 14 for the value of OUT, 11 for that of ERR, -1 for every other value |
| SyslogWrite.PriorityIsUserLevel | src/doppler/sinks/syslog/syslog_sink.go:162-171 | both known priorities have syslog facility 1 (user); OUT has severity 6 (informational) and ERR has severity 3 (error) |
| SyslogWrite.WriteArguments | src/doppler/sinks/syslog/syslog_sink.go:148-151 | the `Write` call for a message carries its payload, source type, source instance and timestamp; its priority is 14 exactly for OUT, 11 exactly for ERR, -1 exactly for any other type |
| SyslogWrite.WriteCalls | src/doppler/sinks/syslog/syslog_sink.go:151 | a sequence of messages gives exactly one `Write` call per message |
| SyslogWrite.WriteCallsAt | src/doppler/sinks/syslog/syslog_sink.go:151 | call k is made with the priority, payload, source type, source instance and timestamp of message k |
| SyslogWrite.Forwarded | src/doppler/sinks/syslog/syslog_sink.go:62-73 | the goroutine forwards no more envelopes than it gets, and only LogMessage envelopes |
| SyslogWrite.ForwardedMembership | src/doppler/sinks/syslog/syslog_sink.go:69-73 | an envelope is forwarded if and only if it is in the feed and is a LogMessage envelope |
| SyslogWrite.ForwardedConcat | src/doppler/sinks/syslog/syslog_sink.go:62-73 | the filter works envelope by envelope and keeps their order: filtering a + b gives the filtered a followed by the filtered b |
| SyslogWrite.ForwardedKeepsLogFeed | src/doppler/sinks/syslog/syslog_sink.go:69-73 | a feed that holds only LogMessage envelopes passes through unchanged |
| SyslogWrite.ForwardedIdempotent | src/doppler/sinks/syslog/syslog_sink.go:69-73 | filtering twice gives the same result as filtering once |
| SinkLoop.CloseSignal | src/doppler/sinks/syslog/syslog_sink.go:133 | the once-guarded close: afterwards the channel is closed; the close count goes up only if it was open; nothing else changes |
| SinkLoop.AddDropped | src/doppler/sinks/syslog/syslog_sink.go:115 | `atomic.AddInt64` on the dropped count: the exact sum when it fits in 64 bits; no other field changes |
| SinkLoop.Halt | src/doppler/sinks/syslog/syslog_sink.go:84 | leaving `Run`: the loop has returned, for the given reason; the deferred `Close` is called once; nothing else changes |
| SinkLoop.ResetTimer | src/doppler/sinks/syslog/syslog_sink.go:86-87 | the top of the loop: the timer is reset to backoff(numberOfTries), and the loop waits for it; nothing else changes |
| SinkLoop.StartWrite | src/doppler/sinks/syslog/syslog_sink.go:151 | `sendMessage` calls `Write` once with `WriteArguments` of the message and then waits for its result; nothing else changes |
| Syslog.SyslogSink.constructor | src/doppler/sinks/syslog/syslog_sink.go:38-49 | a new sink keeps its app id and drain URL; its count is 0, it is not disconnected, and it has made no calls |
| Syslog.SyslogSink.Disconnect | src/doppler/sinks/syslog/syslog_sink.go:132-134 | the disconnect channel is closed, once only, however often `Disconnect` is called; nothing else changes |
| Syslog.SyslogSink.Identifier | src/doppler/sinks/syslog/syslog_sink.go:136-138 | it returns the drain URL |
| Syslog.SyslogSink.StreamId | src/doppler/sinks/syslog/syslog_sink.go:140-142 | it returns the app id |
| Syslog.SyslogSink.ShouldReceiveErrors | src/doppler/sinks/syslog/syslog_sink.go:144-146 | it always returns false |
| Syslog.SyslogSink.GetInstrumentationMetric | src/doppler/sinks/syslog/syslog_sink.go:173-179 | the metric is empty if and only if the dropped count is 0; otherwise it is `numberOfMessagesLost`, its value is the count, and its tags are appId and drainUrl |
| Syslog.SyslogSink.UpdateDroppedMessageCount | src/doppler/sinks/syslog/syslog_sink.go:181-183 | it adds exactly the given count, as 64-bit `atomic.AddInt64`, and changes nothing else |
| Syslog.SyslogSink.NextAnswer | src/doppler/sinks/syslog/syslog_sink.go:88-92 | it blocks until the awaited collaborator answers; concurrent `Disconnect` and `UpdateDroppedMessageCount` calls are applied meanwhile; at a `select` a closed disconnect channel ends the wait |
| Syslog.SyslogSink.WaitForTimer | src/doppler/sinks/syslog/syslog_sink.go:86-92 | it resets the timer to the backoff for the current tries; either the timer fires while the sink is not disconnected, or `Run` ends as `Exec` says |
| Syslog.SyslogSink.Dial | src/doppler/sinks/syslog/syslog_sink.go:94-107 | on success the sink is connected and the tries are unchanged; on failure the tries go up by one, the error is reported, and the loop restarts |
| Syslog.SyslogSink.Receive | src/doppler/sinks/syslog/syslog_sink.go:111-121 | it waits for a message, or ends `Run` on disconnect or a closed buffer, as `Exec` says |
| Syslog.SyslogSink.SendMessage | src/doppler/sinks/syslog/syslog_sink.go:148-159 | it makes one `Write` call for the message; the sink stays connected exactly when that write succeeds |
| Syslog.SyslogSink.ReceiveAndSend | src/doppler/sinks/syslog/syslog_sink.go:111-128 | it receives and sends one message, then goes back to the top of the loop, or `Run` ends as `Exec` says |
| Syslog.SyslogSink.Run | src/doppler/sinks/syslog/syslog_sink.go:51-130 | the sink's fields at the end, and the reported outcome (returned and why, or still running), are those of `SinkLoop.Exec` from a fresh loop over the same script |
| SinkProperties.FailedConnect | src/doppler/sinks/syslog/syslog_sink.go:96-102 | a failed connect raises the tries by exactly one and leaves the sink unconnected; it calls the error handler once with the sink's app id and drain URL and the next backoff; it reads no message; the loop restarts and waits for that backoff |
| SinkProperties.StepEffects | src/doppler/sinks/syslog/syslog_sink.go:88-128 | `SinkLoop.Step`, one event in the phase it answers: the event is consumed; its dropped contribution is added; nothing is written and no timer is reset; `Connect` is called exactly when the timer fires and the sink is not connected; exactly one error, after the earlier ones, is reported for a failed connect; the loop returns and closes the writer exactly when the buffer is closed; a `Disconnect` or `UpdateDroppedMessageCount` call leaves the loop where it was |
| SinkProperties.NextProgress | src/doppler/sinks/syslog/syslog_sink.go:85-129 | `SinkLoop.Next`, one move of the loop: it consumes the next event exactly when the loop waits at a point that event answers; otherwise it gets closer to a wait point or out of the loop, so every run ends |
| SinkProperties.ExecStops | src/doppler/sinks/syslog/syslog_sink.go:85-129 | `SinkLoop.Exec`, a whole run: it stops only where the loop has returned, or where it waits for an event that the script does not give next |
| SinkProperties.ConnectOnlyWhenNotConnected | src/doppler/sinks/syslog/syslog_sink.go:91-96 | after the timer fires, `Connect` is called if and only if the sink is not connected |
| SinkProperties.SuccessfulConnect | src/doppler/sinks/syslog/syslog_sink.go:105-106 | a successful connect sets connected, leaves the tries and every field unchanged, and goes on to wait for a message |
| SinkProperties.WriteOutcome | src/doppler/sinks/syslog/syslog_sink.go:122-127 | a successful write sets the tries to 0, keeps the sink connected, and makes the next wait backoff(0); a failed write disconnects and adds one try; neither reports an error |
| SinkProperties.DisconnectIdempotent | src/doppler/sinks/syslog/syslog_sink.go:132-134 | closing twice is the same as closing once; the channel is closed afterwards, and the close count goes up only if it was open |
| SinkProperties.ExecConsumes | src/doppler/sinks/syslog/syslog_sink.go:85-129 | a run only moves forward through the script and stays within it |
| SinkProperties.DroppedAfterIsWrappedSum | src/doppler/sinks/syslog/syslog_sink.go:115 | folding `atomic.AddInt64` over a stretch of events equals the start count plus the sum of the contributions, wrapped once |
| SinkProperties.DroppedTotal | src/doppler/sinks/syslog/syslog_sink.go:114-115 | the dropped count at the end of a run is the start count with every consumed contribution added. The contributions are each receive's buffer count, including the receive that reports a closed buffer, and each `UpdateDroppedMessageCount` |
| SinkProperties.DroppedTotalWrapped | src/doppler/sinks/syslog/syslog_sink.go:181-183 | the final dropped count is the start count plus the sum of all contributions, modulo 2^64 |
| SinkProperties.WritesInReceiveOrder | src/doppler/sinks/syslog/syslog_sink.go:114-122 | every received message is written exactly once, in the order the buffer gave them, and nothing else is written |
| SinkProperties.ErrorReportsPerFailedConnect | src/doppler/sinks/syslog/syslog_sink.go:96-101 | the error handler is called once for each failed connect and at no other time, always with the sink's app id and drain URL; earlier reports are kept |
| SinkProperties.WriterClosedOncePerExit | src/doppler/sinks/syslog/syslog_sink.go:84 | the writer is closed exactly once on each way out of `Run`, and not while the run is still going |
| SinkProperties.ExecKeepsCoherent | src/doppler/sinks/syslog/syslog_sink.go:85-129 | a run keeps its state consistent: the disconnect channel is closed at most once and stays closed; `Connect` is awaited only while unconnected; messages are read and written only while connected; a run never stops at a `select` with the channel closed |
| SinkProperties.DisconnectedWaitPointReturns | src/doppler/sinks/syslog/syslog_sink.go:88-90 | once disconnected, a loop waiting for the timer or for a message returns at once, consumes nothing more, and closes the writer. This holds because the model lets a closed disconnect channel win at a `select` |
| SinkProperties.DisconnectEndsAtNextWaitPoint | src/doppler/sinks/syslog/syslog_sink.go:111-113 | once disconnected, a loop inside `Connect` or `Write` returns at the next wait point after that call returns, without another `Write` or `Connect`. This holds because the model lets a closed disconnect channel win at a `select` |
| SinkProperties.DisconnectedCallReturns | src/doppler/sinks/syslog/syslog_sink.go:85-113 | the same from the moment of the disconnect: whatever `Disconnect` or `UpdateDroppedMessageCount` calls come before the pending `Connect` or `Write` returns, the run returns at the next wait point with no further `Write` or `Connect` and one writer `Close` |
| SinkProperties.BufferClosedEndsRun | src/doppler/sinks/syslog/syslog_sink.go:116-119 | a closed buffer output channel ends the run whatever comes after it; its dropped count is still added |
| SinkProperties.RepeatedConnectFailures | src/doppler/sinks/syslog/syslog_sink.go:94-102 | against a drain that refuses every connect, each refusal gives one report and one more try; the waits are backoff(t), backoff(t+1), ...; the sink is never connected |
| SinkProperties.OneRetry | src/doppler/sinks/syslog/syslog_sink.go:87-102 | one refused round: the timer fires, `Connect` fails, and the loop is back at its top with one more try and one more report |
| SinkProperties.DeliveriesInOrder | src/doppler/sinks/syslog/syslog_sink.go:111-128 | a connected sink with a healthy drain writes every message once, in order, and waits backoff(0) after each; it drops nothing and reports nothing |
| SinkProperties.OneDelivery | src/doppler/sinks/syslog/syslog_sink.go:111-127 | one healthy round: the message is received with no drops and written; the tries go back to 0; the timer fires again |
| SinkProperties.ImmediateDelivery | src/doppler/sinks/syslog/syslog_sink.go:81-128 | a fresh run against a drain that accepts the first connect and every write makes exactly one `Connect` call and writes every message once, in order; it makes no error report and leaves the dropped count unchanged |

## Left out

- Concurrency (the goroutines, the channels, `select` and `time.Timer`) is replaced by a sequential script of events. Calls from other goroutines (`Disconnect`, `UpdateDroppedMessageCount`) are script events that may come while the loop waits at any point.
- Go's `select` chooses at random when both of its channels are ready. The model always lets a closed disconnect channel win. Two kinds of run after `Disconnect` are therefore not modelled. At line 88 Go may still take `timer.C`, then call `Connect` or wait for a message. At line 111 it may still take one more message and write it.
- The filtering goroutine's own stop on disconnect (lines 74-75), and its close of the filtered channel (line 60), are not linked to the buffer. The buffer is an abstract source of messages, dropped counts and an eventual close, so a closed buffer is a script event of its own.
- `Forwarded` is not connected to the messages `Run` receives. Only what the filter outputs is stated, not how the buffer passes it on.
- The truncating buffer (line 80) and the backoff strategy (line 55) are not part of this model; their source is not among the files. Backoff is an arbitrary function from the number of tries to a duration, with no doubling or cap. The buffer's dropped count arrives with each receive.
- The first `time.NewTimer(backoff(0))` (line 81) is not recorded. `timer.Reset` at line 87 comes straight after it with the same duration, and only the resets are recorded. `timer.Stop` (line 83) is not recorded either.
- The writer's transport (dialing, TLS, wire encoding) is left out. `Connect` and `Write` succeed or fail as the script says.
- Logging through gosteno and the exact error text built with `fmt.Sprintf` (lines 18-20, 99) are left out. An error report holds the fields the text is made of: drain URL, backoff and cause.
- A failed `Write` (lines 153-155) is only logged at debug level and does not reach the error handler. The model follows the code here: `WriteOutcome` states that no report is made.
- Two nil dereferences in `sendMessage` (lines 149-151) are left out. An envelope with no LogMessage payload panics, and so does a LogMessage whose `Timestamp` pointer is nil (`*logMessage.Timestamp`). The model's buffer yields log messages only, and their timestamp is a plain `int64`.
- `sentMessageCount` and `sentByteCount` are never used and are left out. `dropsondeOrigin` is only passed to the truncating buffer at line 80. The `for` loop never reads it, so it too is left out.
- When the script ends while the loop is still waiting, the outcome is `Running`, the writer is not closed, and the Go goroutine is still blocked.
- The `sync/atomic` load and adds are plain field reads and updates in this single-threaded model; only their 64-bit wrap-around is kept.
- `src/doppler/config/config.go` (configuration validation) is not part of this model.
