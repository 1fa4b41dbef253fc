/**
 * The main loop of the syslog sink (`SyslogSink.Run`) as a state machine driven
 * by a script of events. The events are the answers of the sink's collaborators
 * (the backoff timer, the writer's `Connect` and `Write`, the truncating buffer)
 * and the calls other goroutines make into the sink while it runs (`Disconnect`
 * and `UpdateDroppedMessageCount`).
 */
module SinkLoop {
  import opened Int64
  import opened Events
  import opened SyslogWrite

  /** What the sink was built with: its identity and its backoff strategy. */
  datatype Setup = Setup(appId: string, drainUrl: string, backoff: nat -> nat)

  datatype Event =
    | DisconnectCalled                                // another goroutine calls Disconnect
    | DropsReported(count: int64)                     // the router calls UpdateDroppedMessageCount
    | TimerFired                                      // the backoff timer expires
    | ConnectSucceeded
    | ConnectFailed(cause: string)
    | MessageReceived(msg: LogMessage, dropped: int64) // the buffer yields a message and its dropped count
    | BufferClosed(dropped: int64)                     // the buffer's output channel is closed
    | WriteSucceeded
    | WriteFailed(cause: string)

  /** Why `Run` returned. */
  datatype Exit = Disconnected | UpstreamClosed

  /**
   * Where the loop is: the top of the `for`, one of its four blocking points,
   * about to send a received message, or returned.
   */
  datatype Phase =
    | LoopTop
    | Sending(msg: LogMessage)
    | AwaitTimer
    | AwaitConnect
    | AwaitMessage
    | AwaitWrite
    | Returned(exit: Exit)

  /** The text of the dial error: drain URL, the backoff about to be applied, the error. */
  datatype DialError = DialError(drainUrl: string, backoff: nat, cause: string)

  /** One call of the sink's error handler `handleSendError(errorMsg, appId, drainUrl)`. */
  datatype ErrorReport = ErrorReport(message: DialError, appId: string, drainUrl: string)

  /**
   * The sink's fields and the calls it has made on its collaborators so far:
   * `Connect` calls, `Write` calls, error reports, timer resets and `Close` calls.
   * `signalCloses` counts how often the disconnect channel was closed.
   */
  datatype SinkFields = SinkFields(
    dropped: int64,
    disconnected: bool,
    signalCloses: nat,
    connectCalls: nat,
    writes: seq<WriteCall>,
    reports: seq<ErrorReport>,
    timerResets: seq<nat>,
    writerCloses: nat)

  /**
   * The loop's locals `numberOfTries` and `connected`, its phase, the sink, and
   * the number of script events consumed (the position of the next one).
   */
  datatype Machine = Machine(tries: nat, connected: bool, phase: Phase, fields: SinkFields, consumed: nat)

  /** The once-guarded close of the disconnect channel. */
  function CloseSignal(f: SinkFields): (r: SinkFields)
    ensures r.disconnected
    ensures r.signalCloses == f.signalCloses + (if f.disconnected then 0 else 1)
    ensures r.(disconnected := f.disconnected, signalCloses := f.signalCloses) == f
  {
    if f.disconnected then f else f.(disconnected := true, signalCloses := f.signalCloses + 1)
  }

  /** `atomic.AddInt64` on the dropped count; no other field changes. */
  function AddDropped(f: SinkFields, n: int64): (r: SinkFields)
    ensures MinInt64 <= f.dropped as int + n as int <= MaxInt64 ==> r.dropped as int == f.dropped as int + n as int
    ensures r.(dropped := f.dropped) == f
  {
    f.(dropped := AddInt64(f.dropped, n))
  }

  /** The two `select`s of the loop, where a closed disconnect channel ends the run. */
  predicate IsWaitPoint(p: Phase) {
    p == AwaitTimer || p == AwaitMessage
  }

  /** Calls from other goroutines: possible whatever the loop is doing. */
  predicate IsInterference(e: Event) {
    e.DisconnectCalled? || e.DropsReported?
  }

  /** The events that can happen while the loop is in phase `p`. */
  predicate Answers(p: Phase, e: Event) {
    match p
    case AwaitTimer => IsInterference(e) || e.TimerFired?
    case AwaitConnect => IsInterference(e) || e.ConnectSucceeded? || e.ConnectFailed?
    case AwaitMessage => IsInterference(e) || e.MessageReceived? || e.BufferClosed?
    case AwaitWrite => IsInterference(e) || e.WriteSucceeded? || e.WriteFailed?
    case _ => false
  }

  /** Leaving `Run`: the deferred `Close` of the writer runs. */
  function Halt(m: Machine, exit: Exit): (r: Machine)
    ensures r.phase == Returned(exit) && r.fields.writerCloses == m.fields.writerCloses + 1
    ensures r.(phase := m.phase, fields := r.fields.(writerCloses := m.fields.writerCloses)) == m
  {
    m.(phase := Returned(exit), fields := m.fields.(writerCloses := m.fields.writerCloses + 1))
  }

  /** What an event adds to the dropped count. */
  function DroppedDelta(e: Event): int64 {
    match e
    case DropsReported(n) => n
    case MessageReceived(_, d) => d
    case BufferClosed(d) => d
    case _ => 0
  }

  /**
   * One event, in the phase that it answers: the branches of the two `select`s,
   * of `Connect` and of `Write` (`SinkProperties.StepEffects` sums them up).
   */
  function Step(setup: Setup, m: Machine, e: Event): Machine
    requires Answers(m.phase, e)
  {
    var m := m.(consumed := m.consumed + 1);
    match e
    case DisconnectCalled => m.(fields := CloseSignal(m.fields))
    case DropsReported(n) => m.(fields := AddDropped(m.fields, n))
    case TimerFired =>
      if m.connected then m.(phase := AwaitMessage)
      else m.(phase := AwaitConnect, fields := m.fields.(connectCalls := m.fields.connectCalls + 1))
    case ConnectSucceeded => m.(connected := true, phase := AwaitMessage)
    case ConnectFailed(cause) =>
      var tries := m.tries + 1;
      var report := ErrorReport(DialError(setup.drainUrl, setup.backoff(tries), cause), setup.appId, setup.drainUrl);
      m.(tries := tries, phase := LoopTop, fields := m.fields.(reports := m.fields.reports + [report]))
    case MessageReceived(msg, d) => m.(phase := Sending(msg), fields := AddDropped(m.fields, d))
    case BufferClosed(d) => Halt(m.(fields := AddDropped(m.fields, d)), UpstreamClosed)
    case WriteSucceeded => m.(connected := true, tries := 0, phase := LoopTop)
    case WriteFailed(_) => m.(connected := false, tries := m.tries + 1, phase := LoopTop)
  }

  /** The top of the loop: the timer is reset to the backoff for the current number of tries. */
  function ResetTimer(setup: Setup, m: Machine): (r: Machine)
    ensures r.phase == AwaitTimer
    ensures r.fields.timerResets == m.fields.timerResets + [setup.backoff(m.tries)]
    ensures r.(phase := m.phase, fields := r.fields.(timerResets := m.fields.timerResets)) == m
  {
    m.(phase := AwaitTimer, fields := m.fields.(timerResets := m.fields.timerResets + [setup.backoff(m.tries)]))
  }

  /** `sendMessage`: the writer's `Write` is called with the message's priority and fields. */
  function StartWrite(m: Machine, msg: LogMessage): (r: Machine)
    ensures r.phase == AwaitWrite
    ensures r.fields.writes == m.fields.writes + [WriteArguments(msg)]
    ensures r.(phase := m.phase, fields := r.fields.(writes := m.fields.writes)) == m
  {
    m.(phase := AwaitWrite, fields := m.fields.(writes := m.fields.writes + [WriteArguments(msg)]))
  }

  /** The phases the loop passes through without waiting for an event. */
  predicate IsTransient(p: Phase) {
    p.LoopTop? || p.Sending?
  }

  /**
   * The loop can go no further on this script: it has returned, or it waits for
   * an event that the script does not provide next.
   */
  predicate Stuck(m: Machine, script: seq<Event>) {
    m.phase.Returned? ||
    (!IsTransient(m.phase) && !(IsWaitPoint(m.phase) && m.fields.disconnected) &&
     !(m.consumed < |script| && Answers(m.phase, script[m.consumed])))
  }

  function Rank(p: Phase): nat {
    if p.Returned? then 0 else if IsTransient(p) then 2 else 1
  }

  /**
   * One move of the loop: reset the timer at the top, start the write of a
   * received message, return at a `select` once disconnected, or take the next
   * event (`SinkProperties.NextProgress` says how far each move gets).
   */
  function Next(setup: Setup, m: Machine, script: seq<Event>): Machine
    requires !Stuck(m, script)
  {
    if m.phase.LoopTop? then ResetTimer(setup, m)
    else if m.phase.Sending? then StartWrite(m, m.phase.msg)
    else if IsWaitPoint(m.phase) && m.fields.disconnected then Halt(m, Disconnected)
    else Step(setup, m, script[m.consumed])
  }

  /**
   * Runs the loop over a script, from the event at position `m.consumed`, until
   * it returns, or until the script ends or its next event cannot happen in the
   * current phase (the run is then still in progress; `SinkProperties.ExecStops`).
   */
  function Exec(setup: Setup, m: Machine, script: seq<Event>): Machine
    decreases |script| - m.consumed, Rank(m.phase)
  {
    if Stuck(m, script) then m else Exec(setup, Next(setup, m, script), script)
  }

  /** A call of `Run`: fresh locals, at the top of the loop, no events consumed yet. */
  function Start(f: SinkFields): Machine {
    Machine(0, false, LoopTop, f, 0)
  }

  datatype Status = Running | Stopped(exit: Exit)

  /** What `Run` reports: whether it returned and why, and how many events it consumed. */
  datatype Outcome = Outcome(status: Status, consumed: nat)

  function OutcomeOf(m: Machine): Outcome {
    Outcome(if m.phase.Returned? then Stopped(m.phase.exit) else Running, m.consumed)
  }

  /** One unfolding of `Exec` at an event that answers the current phase. */
  lemma ExecStep(setup: Setup, m: Machine, script: seq<Event>)
    requires m.phase in {AwaitTimer, AwaitConnect, AwaitMessage, AwaitWrite}
    requires !(IsWaitPoint(m.phase) && m.fields.disconnected)
    requires m.consumed < |script| && Answers(m.phase, script[m.consumed])
    ensures Exec(setup, m, script) == Exec(setup, Step(setup, m, script[m.consumed]), script)
  {
  }
}
