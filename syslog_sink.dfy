/**
 * The syslog drain sink: one worker per (application, drain URL) that forwards
 * log messages to one remote syslog endpoint.
 */
module Syslog {
  import opened Int64
  import opened Events
  import opened SyslogWrite
  import opened SinkLoop
  import opened SinkProperties

  /** An instrumentation metric; the empty metric has no name, no tags and no value. */
  datatype Metric = Metric(name: string, tags: map<string, string>, value: Option<int64>)

  const EmptyMetric := Metric("", map[], None)

  /** What a wait for the collaborators produced. */
  datatype Answer = Got(e: Event) | Interrupted | Exhausted

  class SyslogSink {
    const appId: string
    const drainUrl: string
    var droppedMessageCount: int64
    /** Whether the disconnect channel is closed, and how often it was closed. */
    var disconnected: bool
    var signalCloses: nat
    /** The calls made on the writer and the error handler, in order. */
    var connectCalls: nat
    var writes: seq<WriteCall>
    var errorReports: seq<ErrorReport>
    var timerResets: seq<nat>
    var writerCloses: nat

    /** The disconnect channel is closed at most once, and exactly once if it is closed. */
    ghost predicate Valid()
      reads this
    {
      signalCloses == if disconnected then 1 else 0
    }

    ghost function Fields(): SinkFields
      reads this
    {
      SinkFields(droppedMessageCount, disconnected, signalCloses, connectCalls,
                 writes, errorReports, timerResets, writerCloses)
    }

    constructor (appId: string, drainUrl: string)
      ensures Valid()
      ensures this.appId == appId && this.drainUrl == drainUrl
      ensures Fields() == SinkFields(0, false, 0, 0, [], [], [], 0)
    {
      this.appId := appId;
      this.drainUrl := drainUrl;
      droppedMessageCount := 0;
      disconnected := false;
      signalCloses := 0;
      connectCalls := 0;
      writes := [];
      errorReports := [];
      timerResets := [];
      writerCloses := 0;
    }

    /** Closes the disconnect channel, once however often it is called. */
    method Disconnect()
      requires Valid()
      modifies this
      ensures Valid() && disconnected
      ensures Fields() == CloseSignal(old(Fields()))
      ensures old(disconnected) ==> Fields() == old(Fields())
    {
      if !disconnected {
        disconnected := true;
        signalCloses := signalCloses + 1;
      }
    }

    function Identifier(): (id: string)
      ensures id == drainUrl
    {
      drainUrl
    }

    function StreamId(): (id: string)
      ensures id == appId
    {
      appId
    }

    function ShouldReceiveErrors(): (b: bool)
      ensures !b
    {
      false
    }

    /** The number of lost messages, tagged with the sink's identity, or the empty metric. */
    function GetInstrumentationMetric(): (m: Metric)
      reads this
      ensures m == EmptyMetric <==> droppedMessageCount == 0
      ensures droppedMessageCount != 0 ==>
        m.name == "numberOfMessagesLost" && m.value == Some(droppedMessageCount) &&
        m.tags == map["appId" := appId, "drainUrl" := drainUrl]
    {
      if droppedMessageCount != 0 then
        Metric("numberOfMessagesLost", map["appId" := appId, "drainUrl" := drainUrl], Some(droppedMessageCount))
      else
        EmptyMetric
    }

    /** Adds `messageCount` to the dropped count, as `atomic.AddInt64` does. */
    method UpdateDroppedMessageCount(messageCount: int64)
      requires Valid()
      modifies this
      ensures Valid()
      ensures Fields() == AddDropped(old(Fields()), messageCount)
    {
      droppedMessageCount := AddInt64(droppedMessageCount, messageCount);
    }

    /**
     * Blocks at one point of the loop in `phase` until the collaborator answers.
     * Calls from other goroutines are applied as they come; at the two `select`s
     * a closed disconnect channel ends the wait.
     */
    method NextAnswer(ghost setup: Setup, script: seq<Event>, i: nat, phase: Phase,
                      ghost tries: nat, ghost connected: bool)
      returns (j: nat, answer: Answer)
      requires Valid() && i <= |script|
      requires phase in {AwaitTimer, AwaitConnect, AwaitMessage, AwaitWrite}
      modifies this
      ensures Valid() && i <= j <= |script|
      ensures Exec(setup, Machine(tries, connected, phase, Fields(), j), script)
           == Exec(setup, Machine(tries, connected, phase, old(Fields()), i), script)
      ensures answer.Interrupted? <==> IsWaitPoint(phase) && disconnected
      ensures answer.Exhausted? ==> j == |script|
      ensures answer.Got? ==> j < |script| && answer.e == script[j] && !IsInterference(answer.e)
      ensures old(disconnected) ==> disconnected
    {
      j := i;
      while true
        invariant Valid() && i <= j <= |script|
        invariant Exec(setup, Machine(tries, connected, phase, Fields(), j), script)
               == Exec(setup, Machine(tries, connected, phase, old(Fields()), i), script)
        invariant old(disconnected) ==> disconnected
        decreases |script| - j
      {
        if IsWaitPoint(phase) && disconnected {
          return j, Interrupted;
        }
        if j == |script| {
          return j, Exhausted;
        }
        var e := script[j];
        if e.DisconnectCalled? {
          Disconnect();
        } else if e.DropsReported? {
          UpdateDroppedMessageCount(e.count);
        } else {
          return j, Got(e);
        }
        j := j + 1;
      }
    }

    /** The loop's state with the sink's current fields. */
    ghost function At(tries: nat, connected: bool, phase: Phase, consumed: nat): Machine
      reads this
    {
      Machine(tries, connected, phase, Fields(), consumed)
    }

    /** Lines 86-92: reset the timer to the current backoff and wait for it, or stop on disconnect. */
    method WaitForTimer(ghost setup: Setup, script: seq<Event>, i: nat, backoff: nat -> nat,
                        numberOfTries: nat, ghost connected: bool, ghost goal: Machine)
      returns (j: nat, fired: bool, outcome: Outcome)
      requires Valid() && i <= |script| && setup.backoff == backoff
      requires Exec(setup, At(numberOfTries, connected, LoopTop, i), script) == goal
      modifies this
      ensures Valid() && i <= j <= |script|
      ensures fired ==> (j < |script| && script[j] == TimerFired && !disconnected &&
        Exec(setup, At(numberOfTries, connected, AwaitTimer, j), script) == goal)
      ensures !fired ==> Fields() == goal.fields && outcome == OutcomeOf(goal)
    {
      timerResets := timerResets + [backoff(numberOfTries)];
      var answer;
      j, answer := NextAnswer(setup, script, i, AwaitTimer, numberOfTries, connected);
      fired, outcome := false, Outcome(Running, j);
      if answer.Interrupted? {
        writerCloses := writerCloses + 1;  // the deferred Close
        outcome := Outcome(Stopped(Disconnected), j);
      } else if answer.Got? && answer.e.TimerFired? {
        fired := true;
      }
    }

    /** Lines 94-107: dial the drain; a failure is counted and reported, and the loop restarts. */
    method Dial(ghost setup: Setup, script: seq<Event>, i: nat, backoff: nat -> nat,
                numberOfTries: nat, ghost goal: Machine)
      returns (j: nat, tries: nat, connected: bool, stop: bool, outcome: Outcome)
      requires Valid() && i <= |script|
      requires setup == Setup(appId, drainUrl, backoff)
      requires Exec(setup, At(numberOfTries, false, AwaitConnect, i), script) == goal
      modifies this
      ensures Valid() && i <= j <= |script|
      ensures stop ==> Fields() == goal.fields && outcome == OutcomeOf(goal)
      ensures !stop && connected ==> (tries == numberOfTries &&
        Exec(setup, At(tries, true, AwaitMessage, j), script) == goal)
      ensures !stop && !connected ==> (tries == numberOfTries + 1 &&
        Exec(setup, At(tries, false, LoopTop, j), script) == goal)
    {
      var answer;
      j, answer := NextAnswer(setup, script, i, AwaitConnect, numberOfTries, false);
      tries, connected, stop, outcome := numberOfTries, false, true, Outcome(Running, j);
      if !(answer.Got? && (answer.e.ConnectSucceeded? || answer.e.ConnectFailed?)) {
        return;
      }
      stop := false;
      j := j + 1;
      if answer.e.ConnectFailed? {
        tries := numberOfTries + 1;
        var errorMsg := DialError(drainUrl, backoff(tries), answer.e.cause);
        errorReports := errorReports + [ErrorReport(errorMsg, appId, drainUrl)];
      } else {
        connected := true;
      }
    }

    /** Lines 148-159: one Write of the message; the result says whether the sink is still connected. */
    method SendMessage(ghost setup: Setup, script: seq<Event>, i: nat, msg: LogMessage,
                       ghost numberOfTries: nat, ghost goal: Machine)
      returns (j: nat, sent: bool, stop: bool, outcome: Outcome)
      requires Valid() && i <= |script|
      requires Exec(setup, At(numberOfTries, true, Sending(msg), i), script) == goal
      modifies this
      ensures Valid() && i <= j <= |script|
      ensures stop ==> Fields() == goal.fields && outcome == OutcomeOf(goal)
      ensures !stop ==> (j < |script| && (script[j].WriteSucceeded? || script[j].WriteFailed?) &&
        (sent <==> script[j].WriteSucceeded?) &&
        Exec(setup, At(numberOfTries, true, AwaitWrite, j), script) == goal)
    {
      writes := writes + [WriteArguments(msg)];
      var answer;
      j, answer := NextAnswer(setup, script, i, AwaitWrite, numberOfTries, true);
      sent, stop, outcome := false, true, Outcome(Running, j);
      if answer.Got? && (answer.e.WriteSucceeded? || answer.e.WriteFailed?) {
        sent, stop := answer.e.WriteSucceeded?, false;
      }
    }

    /**
     * Lines 109-119: wait for a message, or stop on disconnect or a closed buffer;
     * the buffer's dropped count is folded in either way.
     */
    method Receive(ghost setup: Setup, script: seq<Event>, i: nat,
                   ghost numberOfTries: nat, ghost goal: Machine)
      returns (j: nat, msg: LogMessage, stop: bool, outcome: Outcome)
      requires Valid() && i <= |script|
      requires Exec(setup, At(numberOfTries, true, AwaitMessage, i), script) == goal
      modifies this
      ensures Valid() && i <= j <= |script|
      ensures stop ==> Fields() == goal.fields && outcome == OutcomeOf(goal)
      ensures !stop ==> (i < j && Exec(setup, At(numberOfTries, true, Sending(msg), j), script) == goal)
    {
      var answer;
      j, answer := NextAnswer(setup, script, i, AwaitMessage, numberOfTries, true);
      msg, stop, outcome := LogMessage([], Out, 0, "", "", ""), true, Outcome(Running, j);
      if answer.Interrupted? {
        writerCloses := writerCloses + 1;  // the deferred Close
        outcome := Outcome(Stopped(Disconnected), j);
        return;
      }
      if !(answer.Got? && (answer.e.MessageReceived? || answer.e.BufferClosed?)) {
        return;
      }
      j := j + 1;
      droppedMessageCount := AddInt64(droppedMessageCount, answer.e.dropped);
      if answer.e.BufferClosed? {
        writerCloses := writerCloses + 1;  // the deferred Close
        outcome := Outcome(Stopped(UpstreamClosed), j);
        return;
      }
      msg, stop := answer.e.msg, false;
    }

    /** Lines 111-128: receive one message and send it; success resets the tries, failure counts one. */
    method ReceiveAndSend(ghost setup: Setup, script: seq<Event>, i: nat,
                          numberOfTries: nat, ghost goal: Machine)
      returns (j: nat, tries: nat, connected: bool, stop: bool, outcome: Outcome)
      requires Valid() && i <= |script|
      requires Exec(setup, At(numberOfTries, true, AwaitMessage, i), script) == goal
      modifies this
      ensures Valid() && i <= j <= |script|
      ensures stop ==> Fields() == goal.fields && outcome == OutcomeOf(goal)
      ensures !stop ==> i < j && Exec(setup, At(tries, connected, LoopTop, j), script) == goal
    {
      var msg, sent;
      tries, connected := numberOfTries, true;
      j, msg, stop, outcome := Receive(setup, script, i, numberOfTries, goal);
      if stop {
        return;
      }
      j, sent, stop, outcome := SendMessage(setup, script, j, msg, numberOfTries, goal);
      if stop {
        return;
      }
      ExecStep(setup, At(numberOfTries, true, AwaitWrite, j), script);
      WriteOutcome(setup, At(numberOfTries, true, AwaitWrite, j), script[j]);
      j := j + 1;
      connected := sent;
      if connected {
        tries := 0;
      } else {
        tries := numberOfTries + 1;
      }
    }

    /**
     * The main loop. The script stands for everything the sink's collaborators
     * and other goroutines do while it runs; `backoff` is the retry strategy.
     */
    method Run(script: seq<Event>, backoff: nat -> nat) returns (outcome: Outcome)
      requires Valid()
      modifies this
      ensures Valid()
      ensures var r := Exec(Setup(appId, drainUrl, backoff), Start(old(Fields())), script);
        Fields() == r.fields && outcome == OutcomeOf(r)
    {
      ghost var setup := Setup(appId, drainUrl, backoff);
      ghost var goal := Exec(setup, Start(Fields()), script);
      var numberOfTries: nat := 0;
      var connected := false;
      var i: nat := 0;
      while true
        invariant Valid() && i <= |script|
        invariant Exec(setup, At(numberOfTries, connected, LoopTop, i), script) == goal
        decreases |script| - i
      {
        var fired, stop;
        i, fired, outcome := WaitForTimer(setup, script, i, backoff, numberOfTries, connected, goal);
        if !fired {
          return;
        }
        ExecStep(setup, At(numberOfTries, connected, AwaitTimer, i), script);
        ConnectOnlyWhenNotConnected(setup, At(numberOfTries, connected, AwaitTimer, i));
        i := i + 1;
        if !connected {
          connectCalls := connectCalls + 1;
          i, numberOfTries, connected, stop, outcome := Dial(setup, script, i, backoff, numberOfTries, goal);
          if stop {
            return;
          }
          if !connected {
            continue;
          }
        }
        i, numberOfTries, connected, stop, outcome := ReceiveAndSend(setup, script, i, numberOfTries, goal);
        if stop {
          return;
        }
      }
    }
  }
}
