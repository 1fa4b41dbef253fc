/**
 * What the syslog sink's main loop guarantees, stated over `SinkLoop.Exec`:
 * per-event effects of connect, write and disconnect, and whole-run accounting
 * of dropped messages, writes, error reports and the writer's `Close`.
 */
module SinkProperties {
  import opened Int64
  import opened Events
  import opened SyslogWrite
  import opened SinkLoop

  // ---------------------------------------------------------------------------
  // One event at a time
  // ---------------------------------------------------------------------------

  /**
   * A failed connect counts one more try, reports the error once with the sink's
   * identity and the backoff about to be waited, leaves the sink unconnected,
   * reads no message, and restarts the loop with a wait of that same backoff.
   */
  lemma FailedConnect(setup: Setup, m: Machine, s: seq<Event>)
    requires m.phase == AwaitConnect && !m.connected
    requires m.consumed < |s| && s[m.consumed].ConnectFailed?
    ensures var r := Step(setup, m, s[m.consumed]);
      r.tries == m.tries + 1 && !r.connected && r.phase == LoopTop
    ensures var r := Step(setup, m, s[m.consumed]);
      var report := ErrorReport(DialError(setup.drainUrl, setup.backoff(m.tries + 1), s[m.consumed].cause),
                                setup.appId, setup.drainUrl);
      r.fields == m.fields.(reports := m.fields.reports + [report]) &&
      ResetTimer(setup, r).fields.timerResets == r.fields.timerResets + [report.message.backoff]
    ensures Exec(setup, m, s) == Exec(setup, ResetTimer(setup, Step(setup, m, s[m.consumed])), s)
  {
    FailedConnectStep(setup, m, s[m.consumed]);
    FailedConnectRestarts(setup, m, s);
  }

  /** The state right after a failed connect. */
  lemma FailedConnectStep(setup: Setup, m: Machine, e: Event)
    requires m.phase == AwaitConnect && e.ConnectFailed?
    ensures var r := Step(setup, m, e);
      var report := ErrorReport(DialError(setup.drainUrl, setup.backoff(m.tries + 1), e.cause),
                                setup.appId, setup.drainUrl);
      r == m.(consumed := m.consumed + 1, tries := m.tries + 1, phase := LoopTop,
              fields := m.fields.(reports := m.fields.reports + [report]))
  {
  }

  lemma FailedConnectRestarts(setup: Setup, m: Machine, s: seq<Event>)
    requires m.phase == AwaitConnect && m.consumed < |s| && s[m.consumed].ConnectFailed?
    ensures var r := Step(setup, m, s[m.consumed]);
      Exec(setup, m, s) == Exec(setup, ResetTimer(setup, r), s)
  {
    ExecStep(setup, m, s);
    LoopTopResetsTimer(setup, Step(setup, m, s[m.consumed]), s);
  }

  /** From the top of the loop, a run goes on after the timer reset. */
  lemma LoopTopResetsTimer(setup: Setup, m: Machine, s: seq<Event>)
    requires m.phase == LoopTop
    ensures Exec(setup, m, s) == Exec(setup, ResetTimer(setup, m), s)
  {
    ExecMoves(setup, m, s);
  }

  /**
   * When the timer fires, `Connect` is attempted exactly when the sink is not
   * connected; otherwise the loop goes straight to waiting for a message.
   */
  lemma ConnectOnlyWhenNotConnected(setup: Setup, m: Machine)
    requires m.phase == AwaitTimer
    ensures var r := Step(setup, m, TimerFired);
      r.phase == (if m.connected then AwaitMessage else AwaitConnect) &&
      r.fields.connectCalls == m.fields.connectCalls + (if m.connected then 0 else 1) &&
      r.fields == m.fields.(connectCalls := r.fields.connectCalls) &&
      r.tries == m.tries && r.connected == m.connected && r.consumed == m.consumed + 1
  {
  }

  /** A successful connect marks the sink connected and leaves the number of tries alone. */
  lemma SuccessfulConnect(setup: Setup, m: Machine)
    requires m.phase == AwaitConnect
    ensures var r := Step(setup, m, ConnectSucceeded);
      r.connected && r.tries == m.tries && r.phase == AwaitMessage && r.fields == m.fields
  {
  }

  /**
   * After a write: success resets the tries to 0, keeps the sink connected, and
   * the next timer wait is `backoff(0)`; failure marks it unconnected and counts
   * one more try. Neither reports to the error handler.
   */
  lemma WriteOutcome(setup: Setup, m: Machine, e: Event)
    requires m.phase == AwaitWrite && (e.WriteSucceeded? || e.WriteFailed?)
    ensures var r := Step(setup, m, e);
      r.phase == LoopTop && r.fields == m.fields && r.consumed == m.consumed + 1 &&
      (e.WriteSucceeded? ==>
         (r.connected && r.tries == 0 &&
          ResetTimer(setup, r).fields.timerResets == m.fields.timerResets + [setup.backoff(0)])) &&
      (e.WriteFailed? ==> (!r.connected && r.tries == m.tries + 1))
  {
  }

  /**
   * What one event does: it is consumed, its contribution goes to the dropped
   * count, nothing is written and no timer is reset, `Connect` is called exactly
   * when the timer fires and the sink is not connected, exactly one error is
   * reported (after the earlier ones) for a failed connect, and the loop
   * returns, closing the writer, exactly when the buffer is closed. Calls from
   * other goroutines leave the loop where it was.
   */
  lemma StepEffects(setup: Setup, m: Machine, e: Event)
    requires Answers(m.phase, e)
    ensures var r := Step(setup, m, e);
      r.consumed == m.consumed + 1 &&
      r.fields.dropped == AddInt64(m.fields.dropped, DroppedDelta(e)) &&
      r.fields.writes == m.fields.writes && r.fields.timerResets == m.fields.timerResets &&
      r.fields.connectCalls == m.fields.connectCalls + (if e.TimerFired? && !m.connected then 1 else 0) &&
      m.fields.reports <= r.fields.reports &&
      |r.fields.reports| == |m.fields.reports| + (if e.ConnectFailed? then 1 else 0) &&
      (r.phase.Returned? <==> e.BufferClosed?) &&
      r.fields.writerCloses == m.fields.writerCloses + (if e.BufferClosed? then 1 else 0) &&
      (IsInterference(e) ==> r.phase == m.phase && r.tries == m.tries && r.connected == m.connected)
  {
  }

  /** `Disconnect` is idempotent and closes the channel at most once. */
  lemma DisconnectIdempotent(f: SinkFields)
    ensures CloseSignal(CloseSignal(f)) == CloseSignal(f)
    ensures CloseSignal(f).disconnected
    ensures CloseSignal(f).signalCloses == f.signalCloses + (if f.disconnected then 0 else 1)
  {
  }

  // ---------------------------------------------------------------------------
  // Whole runs
  // ---------------------------------------------------------------------------

  /** A run consumes a stretch of the script, from where it starts. */
  lemma {:induction false} ExecConsumes(setup: Setup, m: Machine, s: seq<Event>)
    ensures m.consumed <= Exec(setup, m, s).consumed
    ensures m.consumed <= |s| ==> Exec(setup, m, s).consumed <= |s|
    decreases |s| - m.consumed, Rank(m.phase)
  {
    if !Stuck(m, s) {
      var m1 := Next(setup, m, s);
      ExecConsumes(setup, m1, s);
    }
  }

  /**
   * The dropped count after the events at positions `a` to `b` (exclusive),
   * starting from `d`: one `atomic.AddInt64` per contribution.
   */
  function DroppedAfter(d: int64, s: seq<Event>, a: nat, b: nat): int64
    decreases b - a
  {
    if a >= b || a >= |s| then d else DroppedAfter(AddInt64(d, DroppedDelta(s[a])), s, a + 1, b)
  }

  /** The sum of the contributions of the events at positions `a` to `b` (exclusive). */
  function Contributions(s: seq<Event>, a: nat, b: nat): int
    decreases b - a
  {
    if a >= b || a >= |s| then 0 else DroppedDelta(s[a]) as int + Contributions(s, a + 1, b)
  }

  /** The count after a stretch of events is the start count plus their sum, modulo 2^64. */
  lemma {:induction false} DroppedAfterIsWrappedSum(d: int64, s: seq<Event>, a: nat, b: nat)
    ensures DroppedAfter(d, s, a, b) == Wrap(d as int + Contributions(s, a, b))
    decreases b - a
  {
    if a >= b || a >= |s| {
    } else {
      var d1 := AddInt64(d, DroppedDelta(s[a]));
      DroppedAfterIsWrappedSum(d1, s, a + 1, b);
      WrapOfWrappedSum(d as int + DroppedDelta(s[a]) as int, Contributions(s, a + 1, b));
    }
  }

  /** A run that can move goes on from where that move leads. */
  lemma ExecMoves(setup: Setup, m: Machine, s: seq<Event>)
    requires !Stuck(m, s)
    ensures Exec(setup, m, s) == Exec(setup, Next(setup, m, s), s)
  {
  }

  /** One move of the loop consumes at most one event. */
  lemma NextConsumes(setup: Setup, m: Machine, s: seq<Event>)
    requires !Stuck(m, s)
    ensures var c := Next(setup, m, s).consumed;
      c == m.consumed || (c == m.consumed + 1 && m.consumed < |s|)
  {
  }

  /**
   * Each move of the loop consumes the next event exactly when the loop waits
   * at a point that the event answers, and otherwise brings the loop closer to
   * a wait point or out of the loop; so every run is finite.
   */
  lemma NextProgress(setup: Setup, m: Machine, s: seq<Event>)
    requires !Stuck(m, s)
    ensures var r := Next(setup, m, s);
      r.consumed == m.consumed + (if IsTransient(m.phase) || (IsWaitPoint(m.phase) && m.fields.disconnected) then 0 else 1) &&
      (r.consumed > m.consumed || Rank(r.phase) < Rank(m.phase))
  {
  }

  /**
   * A run stops only where the loop can go no further: it has returned, or it
   * waits for an event that the script does not give next.
   */
  lemma {:induction false} ExecStops(setup: Setup, m: Machine, s: seq<Event>)
    ensures Stuck(Exec(setup, m, s), s)
    decreases |s| - m.consumed, Rank(m.phase)
  {
    if !Stuck(m, s) {
      ExecStops(setup, Next(setup, m, s), s);
    }
  }

  /** One move adds the contribution of the event it consumed to the dropped count. */
  lemma NextDropped(setup: Setup, m: Machine, s: seq<Event>)
    requires !Stuck(m, s)
    ensures var m1 := Next(setup, m, s);
      m1.fields.dropped == DroppedAfter(m.fields.dropped, s, m.consumed, m1.consumed)
  {
    NextConsumes(setup, m, s);
  }

  lemma DroppedAfterSplit(d: int64, s: seq<Event>, a: nat, b: nat, c: nat)
    requires a <= b <= c && b <= a + 1
    ensures DroppedAfter(d, s, a, c) == DroppedAfter(DroppedAfter(d, s, a, b), s, b, c)
  {
  }

  /**
   * The dropped count at the end of a run is the count at its start plus every
   * contribution consumed: the buffer's count at each receive (also the one that
   * reports the closed channel) and each `UpdateDroppedMessageCount`.
   */
  lemma {:induction false} DroppedTotal(setup: Setup, m: Machine, s: seq<Event>)
    ensures var r := Exec(setup, m, s);
      r.fields.dropped == DroppedAfter(m.fields.dropped, s, m.consumed, r.consumed)
    decreases |s| - m.consumed, Rank(m.phase)
  {
    if !Stuck(m, s) {
      var m1 := Next(setup, m, s);
      DroppedTotal(setup, m1, s);
      ExecConsumes(setup, m1, s);
      NextConsumes(setup, m, s);
      NextDropped(setup, m, s);
      DroppedAfterSplit(m.fields.dropped, s, m.consumed, m1.consumed, Exec(setup, m1, s).consumed);
    }
  }

  /** The same, as a sum: contributions add up, wrapping at 64 bits as `atomic.AddInt64` does. */
  lemma DroppedTotalWrapped(setup: Setup, m: Machine, s: seq<Event>)
    ensures var r := Exec(setup, m, s);
      r.fields.dropped == Wrap(m.fields.dropped as int + Contributions(s, m.consumed, r.consumed))
  {
    DroppedTotal(setup, m, s);
    DroppedAfterIsWrappedSum(m.fields.dropped, s, m.consumed, Exec(setup, m, s).consumed);
  }

  /** The `Write` calls that the events at positions `a` to `b` (exclusive) lead to. */
  function Delivered(s: seq<Event>, a: nat, b: nat): seq<WriteCall>
    decreases b - a
  {
    if a >= b || a >= |s| then []
    else (if s[a].MessageReceived? then [WriteArguments(s[a].msg)] else []) + Delivered(s, a + 1, b)
  }

  /** The write of a received message that the loop is about to make. */
  function PendingWrite(m: Machine): seq<WriteCall> {
    if m.phase.Sending? then [WriteArguments(m.phase.msg)] else []
  }

  /** One move makes the write for the message it is about to send, if any. */
  lemma NextWrites(setup: Setup, m: Machine, s: seq<Event>)
    requires !Stuck(m, s)
    ensures var m1 := Next(setup, m, s);
      m1.fields.writes + PendingWrite(m1)
        == m.fields.writes + PendingWrite(m) + Delivered(s, m.consumed, m1.consumed)
  {
    NextConsumes(setup, m, s);
  }

  lemma {:induction false} DeliveredSplit(s: seq<Event>, a: nat, b: nat, c: nat)
    requires a <= b <= c && b <= a + 1
    ensures Delivered(s, a, c) == Delivered(s, a, b) + Delivered(s, b, c)
  {
  }

  lemma WritesCompose(s: seq<Event>, a: nat, b: nat, c: nat, w0: seq<WriteCall>, w1: seq<WriteCall>, w2: seq<WriteCall>)
    requires a <= b <= c && b <= a + 1
    requires w1 == w0 + Delivered(s, a, b) && w2 == w1 + Delivered(s, b, c)
    ensures w2 == w0 + Delivered(s, a, c)
  {
    DeliveredSplit(s, a, b, c);
  }

  /**
   * Every received message is written exactly once, in the order the buffer
   * yielded them; nothing else is written.
   */
  lemma {:induction false} WritesInReceiveOrder(setup: Setup, m: Machine, s: seq<Event>)
    ensures var r := Exec(setup, m, s);
      r.fields.writes == m.fields.writes + PendingWrite(m) + Delivered(s, m.consumed, r.consumed)
    decreases |s| - m.consumed, Rank(m.phase)
  {
    if !Stuck(m, s) {
      var m1 := Next(setup, m, s);
      WritesInReceiveOrder(setup, m1, s);
      ExecConsumes(setup, m1, s);
      NextConsumes(setup, m, s);
      NextWrites(setup, m, s);
      var r := Exec(setup, m1, s);
      WritesCompose(s, m.consumed, m1.consumed, r.consumed,
                    m.fields.writes + PendingWrite(m), m1.fields.writes + PendingWrite(m1), r.fields.writes);
    }
  }

  /** The failed connects among the events at positions `a` to `b` (exclusive). */
  function ConnectFailures(s: seq<Event>, a: nat, b: nat): nat
    decreases b - a
  {
    if a >= b || a >= |s| then 0 else (if s[a].ConnectFailed? then 1 else 0) + ConnectFailures(s, a + 1, b)
  }

  lemma {:induction false} ConnectFailuresSplit(s: seq<Event>, a: nat, b: nat, c: nat)
    requires a <= b <= c && b <= a + 1
    ensures ConnectFailures(s, a, c) == ConnectFailures(s, a, b) + ConnectFailures(s, b, c)
  {
  }

  /** A report made with the sink's application id and drain URL. */
  predicate ReportsFor(setup: Setup, r: ErrorReport) {
    r.appId == setup.appId && r.drainUrl == setup.drainUrl && r.message.drainUrl == setup.drainUrl
  }

  /** The reports in `after` beyond the first `|before|` extend `before` and all come from this sink. */
  predicate ExtendsWithOwnReports(setup: Setup, before: seq<ErrorReport>, after: seq<ErrorReport>) {
    before <= after && forall j :: |before| <= j < |after| ==> ReportsFor(setup, after[j])
  }

  /** One move reports one error for a failed connect, and none otherwise. */
  lemma NextReports(setup: Setup, m: Machine, s: seq<Event>)
    requires !Stuck(m, s)
    ensures var m1 := Next(setup, m, s);
      |m1.fields.reports| == |m.fields.reports| + ConnectFailures(s, m.consumed, m1.consumed) &&
      ExtendsWithOwnReports(setup, m.fields.reports, m1.fields.reports)
  {
    NextConsumes(setup, m, s);
  }

  lemma ReportsCompose(setup: Setup, s: seq<Event>, a: nat, b: nat, c: nat,
                       r0: seq<ErrorReport>, r1: seq<ErrorReport>, r2: seq<ErrorReport>)
    requires a <= b <= c && b <= a + 1
    requires |r1| == |r0| + ConnectFailures(s, a, b) && ExtendsWithOwnReports(setup, r0, r1)
    requires |r2| == |r1| + ConnectFailures(s, b, c) && ExtendsWithOwnReports(setup, r1, r2)
    ensures |r2| == |r0| + ConnectFailures(s, a, c) && ExtendsWithOwnReports(setup, r0, r2)
  {
    ConnectFailuresSplit(s, a, b, c);
    forall j | |r0| <= j < |r2|
      ensures ReportsFor(setup, r2[j])
    {
      if j < |r1| {
        assert r2[j] == r1[j];
      }
    }
  }

  /**
   * The error handler is called once per failed connect and never otherwise,
   * each time with the sink's application id and drain URL; earlier reports stay.
   */
  lemma {:induction false} ErrorReportsPerFailedConnect(setup: Setup, m: Machine, s: seq<Event>)
    ensures var r := Exec(setup, m, s);
      |r.fields.reports| == |m.fields.reports| + ConnectFailures(s, m.consumed, r.consumed) &&
      ExtendsWithOwnReports(setup, m.fields.reports, r.fields.reports)
    decreases |s| - m.consumed, Rank(m.phase)
  {
    if !Stuck(m, s) {
      var m1 := Next(setup, m, s);
      ErrorReportsPerFailedConnect(setup, m1, s);
      ExecConsumes(setup, m1, s);
      NextConsumes(setup, m, s);
      NextReports(setup, m, s);
      var r := Exec(setup, m1, s);
      ReportsCompose(setup, s, m.consumed, m1.consumed, r.consumed,
                     m.fields.reports, m1.fields.reports, r.fields.reports);
    }
  }

  /**
   * The writer is closed exactly once on every path out of `Run`, and not at all
   * while the run is still in progress.
   */
  lemma {:induction false} WriterClosedOncePerExit(setup: Setup, m: Machine, s: seq<Event>)
    ensures var r := Exec(setup, m, s);
      r.fields.writerCloses
        == m.fields.writerCloses + (if r.phase.Returned? && !m.phase.Returned? then 1 else 0)
    decreases |s| - m.consumed, Rank(m.phase)
  {
    if !Stuck(m, s) {
      var m1 := Next(setup, m, s);
      WriterClosedOncePerExit(setup, m1, s);
    }
  }

  /** The state a running loop keeps consistent. */
  predicate Coherent(m: Machine) {
    m.fields.signalCloses == (if m.fields.disconnected then 1 else 0) &&
    (m.phase == AwaitConnect ==> !m.connected) &&
    (m.phase == AwaitMessage || m.phase.Sending? || m.phase == AwaitWrite ==> m.connected) &&
    (m.phase == Returned(Disconnected) ==> m.fields.disconnected)
  }

  /**
   * A run keeps the state coherent: the disconnect channel is closed at most
   * once, `Connect` is only awaited when not connected, the sink reads and writes
   * only when connected, and it returns for disconnect only once disconnected.
   * A run never ends blocked at a `select` with the disconnect channel closed,
   * and a closed channel stays closed.
   */
  lemma {:induction false} ExecKeepsCoherent(setup: Setup, m: Machine, s: seq<Event>)
    requires Coherent(m)
    ensures var r := Exec(setup, m, s);
      Coherent(r) && (m.fields.disconnected ==> r.fields.disconnected) &&
      !IsTransient(r.phase) && !(IsWaitPoint(r.phase) && r.fields.disconnected)
    decreases |s| - m.consumed, Rank(m.phase)
  {
    if !Stuck(m, s) {
      var m1 := Next(setup, m, s);
      ExecKeepsCoherent(setup, m1, s);
    }
  }

  /**
   * Once disconnected, a loop waiting for the timer or for a message returns
   * without consuming anything more, and closes the writer.
   */
  lemma DisconnectedWaitPointReturns(setup: Setup, m: Machine, s: seq<Event>)
    requires IsWaitPoint(m.phase) && m.fields.disconnected
    ensures Exec(setup, m, s) == Halt(m, Disconnected)
    ensures Halt(m, Disconnected).consumed == m.consumed
    ensures Halt(m, Disconnected).fields.writerCloses == m.fields.writerCloses + 1
  {
    ExecMoves(setup, m, s);
  }

  /**
   * Once disconnected, a loop that is inside `Connect` or `Write` returns at the
   * next wait point, as soon as that call has returned, whatever comes next.
   */
  lemma DisconnectEndsAtNextWaitPoint(setup: Setup, m: Machine, s: seq<Event>)
    requires m.fields.disconnected && (m.phase == AwaitConnect || m.phase == AwaitWrite)
    requires m.consumed < |s| && Answers(m.phase, s[m.consumed]) && !IsInterference(s[m.consumed])
    ensures var r := Exec(setup, m, s);
      r.phase == Returned(Disconnected) && r.consumed == m.consumed + 1 &&
      r.fields.writerCloses == m.fields.writerCloses + 1 &&
      r.fields.writes == m.fields.writes && r.fields.connectCalls == m.fields.connectCalls
  {
    var m1 := Step(setup, m, s[m.consumed]);
    ExecStep(setup, m, s);
    if m1.phase == LoopTop {
      var m2 := ResetTimer(setup, m1);
      ExecMoves(setup, m1, s);
      ExecMoves(setup, m2, s);
    } else {
      ExecMoves(setup, m1, s);
    }
  }

  /**
   * Once disconnected, a loop inside `Connect` or `Write` returns at the next
   * wait point after that call returns, whatever other goroutines do meanwhile
   * (further `Disconnect` or `UpdateDroppedMessageCount` calls). It makes no
   * further `Write` or `Connect` call.
   */
  lemma {:induction false} DisconnectedCallReturns(setup: Setup, m: Machine, s: seq<Event>, j: nat)
    requires m.fields.disconnected && (m.phase == AwaitConnect || m.phase == AwaitWrite)
    requires m.consumed <= j < |s| && Answers(m.phase, s[j]) && !IsInterference(s[j])
    requires forall k :: m.consumed <= k < j ==> IsInterference(s[k])
    ensures var r := Exec(setup, m, s);
      r.phase == Returned(Disconnected) && r.consumed == j + 1 &&
      r.fields.writerCloses == m.fields.writerCloses + 1 &&
      r.fields.writes == m.fields.writes && r.fields.connectCalls == m.fields.connectCalls
    decreases j - m.consumed
  {
    if m.consumed == j {
      DisconnectEndsAtNextWaitPoint(setup, m, s);
    } else {
      var m1 := Step(setup, m, s[m.consumed]);
      ExecStep(setup, m, s);
      DisconnectedCallReturns(setup, m1, s, j);
    }
  }

  /** A closed buffer output channel ends the run, whatever comes after it. */
  lemma BufferClosedEndsRun(setup: Setup, m: Machine, s: seq<Event>)
    requires m.phase == AwaitMessage && !m.fields.disconnected
    requires m.consumed < |s| && s[m.consumed].BufferClosed?
    ensures var r := Exec(setup, m, s);
      r.phase == Returned(UpstreamClosed) && r.consumed == m.consumed + 1 &&
      r.fields.dropped == AddInt64(m.fields.dropped, s[m.consumed].dropped) &&
      r.fields.writerCloses == m.fields.writerCloses + 1
  {
  }

  // ---------------------------------------------------------------------------
  // Scenarios
  // ---------------------------------------------------------------------------

  /** Each timer expiry is followed by a failed connect. */
  function Retries(causes: seq<string>): seq<Event> {
    if causes == [] then [] else [TimerFired, ConnectFailed(causes[0])] + Retries(causes[1..])
  }

  /** The error reports for consecutive failed connects starting after `tries` tries. */
  function DialReports(setup: Setup, tries: nat, causes: seq<string>): seq<ErrorReport>
    decreases |causes|
  {
    if causes == [] then []
    else [ErrorReport(DialError(setup.drainUrl, setup.backoff(tries + 1), causes[0]), setup.appId, setup.drainUrl)]
         + DialReports(setup, tries + 1, causes[1..])
  }

  /** backoff(from), backoff(from + 1), ..., n values. */
  function Waits(backoff: nat -> nat, from: nat, n: nat): seq<nat>
    decreases n
  {
    if n == 0 then [] else [backoff(from)] + Waits(backoff, from + 1, n - 1)
  }

  /**
   * A drain that refuses every connect: one error report and one more try per
   * refusal, a wait of backoff(t), backoff(t + 1), ... before each attempt, and
   * the sink never gets connected.
   */
  lemma {:induction false} RepeatedConnectFailures(setup: Setup, m: Machine, s: seq<Event>, causes: seq<string>)
    requires m.phase == LoopTop && !m.connected && !m.fields.disconnected
    requires m.consumed <= |s| && s[m.consumed..] == Retries(causes)
    ensures Exec(setup, m, s) == m.(
      phase := AwaitTimer,
      tries := m.tries + |causes|,
      consumed := |s|,
      fields := m.fields.(
        connectCalls := m.fields.connectCalls + |causes|,
        reports := m.fields.reports + DialReports(setup, m.tries, causes),
        timerResets := m.fields.timerResets + Waits(setup.backoff, m.tries, |causes| + 1)))
    decreases |causes|
  {
    var c := m.consumed;
    if causes != [] {
      assert s[c] == s[c..][0] == TimerFired;
      assert s[c + 1] == s[c..][1] == ConnectFailed(causes[0]);
      assert s[c + 2..] == s[c..][2..] == Retries(causes[1..]);
      var m3 := OneRetry(setup, m, s);
      RepeatedConnectFailures(setup, m3, s, causes[1..]);
    } else {
      assert |s[c..]| == 0;
      ExecMoves(setup, m, s);
    }
  }

  /** One round of a refusing drain: the timer fires, `Connect` fails, the loop restarts. */
  lemma OneRetry(setup: Setup, m: Machine, s: seq<Event>) returns (m3: Machine)
    requires m.phase == LoopTop && !m.connected && !m.fields.disconnected
    requires m.consumed + 1 < |s| && s[m.consumed] == TimerFired && s[m.consumed + 1].ConnectFailed?
    ensures m3 == m.(
      tries := m.tries + 1,
      consumed := m.consumed + 2,
      fields := m.fields.(
        connectCalls := m.fields.connectCalls + 1,
        reports := m.fields.reports + DialReports(setup, m.tries, [s[m.consumed + 1].cause]),
        timerResets := m.fields.timerResets + [setup.backoff(m.tries)]))
    ensures Exec(setup, m, s) == Exec(setup, m3, s)
  {
    var m1 := ResetTimer(setup, m);
    ExecMoves(setup, m, s);
    var m2 := Step(setup, m1, TimerFired);
    ExecStep(setup, m1, s);
    m3 := Step(setup, m2, s[m.consumed + 1]);
    ExecStep(setup, m2, s);
  }

  /** Each message is received without drops and written successfully, then the timer fires. */
  function Deliveries(msgs: seq<LogMessage>): seq<Event> {
    if msgs == [] then [] else [MessageReceived(msgs[0], 0), WriteSucceeded, TimerFired] + Deliveries(msgs[1..])
  }

  /** The first round of a delivery script, and the rounds after it. */
  lemma DeliveriesHead(s: seq<Event>, c: nat, msgs: seq<LogMessage>)
    requires msgs != [] && c <= |s| && s[c..] == Deliveries(msgs)
    ensures c + 3 <= |s|
    ensures s[c] == MessageReceived(msgs[0], 0) && s[c + 1] == WriteSucceeded && s[c + 2] == TimerFired
    ensures s[c + 3..] == Deliveries(msgs[1..])
  {
    assert s[c] == s[c..][0];
    assert s[c + 1] == s[c..][1];
    assert s[c + 2] == s[c..][2];
    assert s[c + 3..] == s[c..][3..];
  }

  function Repeat(x: nat, n: nat): seq<nat> {
    if n == 0 then [] else [x] + Repeat(x, n - 1)
  }

  /**
   * `r` is where a connected sink gets from `m` by delivering `msgs`: all written,
   * in order, a wait of backoff(0) after each, and nothing else changed.
   */
  predicate DeliveredAll(setup: Setup, m: Machine, r: Machine, msgs: seq<LogMessage>) {
    r.phase == m.phase && r.connected == m.connected &&
    r.tries == (if msgs == [] then m.tries else 0) &&
    r.fields == m.fields.(
      writes := m.fields.writes + WriteCalls(msgs),
      timerResets := m.fields.timerResets + Repeat(setup.backoff(0), |msgs|))
  }

  /**
   * A connected sink with a healthy drain writes every message in order, drops
   * nothing, reports nothing, and waits backoff(0) after each successful send.
   */
  lemma {:induction false} DeliveriesInOrder(setup: Setup, m: Machine, s: seq<Event>, msgs: seq<LogMessage>)
    requires m.phase == AwaitMessage && m.connected && !m.fields.disconnected
    requires m.consumed <= |s| && s[m.consumed..] == Deliveries(msgs)
    ensures var r := Exec(setup, m, s);
      DeliveredAll(setup, m, r, msgs) && r.consumed == |s|
    decreases |msgs|
  {
    var c := m.consumed;
    if msgs != [] {
      DeliveriesHead(s, c, msgs);
      var m5 := OneDelivery(setup, m, s);
      DeliveriesInOrder(setup, m5, s, msgs[1..]);
      DeliveredAllStep(setup, m, m5, Exec(setup, m5, s), msgs);
    } else {
      assert |s[c..]| == 0;
      assert Stuck(m, s);
    }
  }

  /** Delivering the first message, then the rest, delivers them all. */
  lemma DeliveredAllStep(setup: Setup, m: Machine, m5: Machine, r: Machine, msgs: seq<LogMessage>)
    requires msgs != []
    requires m5 == m.(
      tries := 0,
      consumed := m5.consumed,
      fields := m.fields.(
        writes := m.fields.writes + [WriteArguments(msgs[0])],
        timerResets := m.fields.timerResets + [setup.backoff(0)]))
    requires DeliveredAll(setup, m5, r, msgs[1..])
    ensures DeliveredAll(setup, m, r, msgs)
  {
    var w, t := m.fields.writes, m.fields.timerResets;
    var b := setup.backoff(0);
    assert (w + [WriteArguments(msgs[0])]) + WriteCalls(msgs[1..]) == w + WriteCalls(msgs) by {
      assert WriteCalls(msgs) == [WriteArguments(msgs[0])] + WriteCalls(msgs[1..]);
    }
    assert (t + [b]) + Repeat(b, |msgs[1..]|) == t + Repeat(b, |msgs|) by {
      assert Repeat(b, |msgs|) == [b] + Repeat(b, |msgs[1..]|);
    }
  }

  /** One round of a healthy drain: a message without drops is written, then the timer fires. */
  lemma OneDelivery(setup: Setup, m: Machine, s: seq<Event>) returns (m5: Machine)
    requires m.phase == AwaitMessage && m.connected && !m.fields.disconnected
    requires m.consumed + 2 < |s| && s[m.consumed].MessageReceived? && s[m.consumed].dropped == 0
    requires s[m.consumed + 1] == WriteSucceeded && s[m.consumed + 2] == TimerFired
    ensures m5 == m.(
      tries := 0,
      consumed := m.consumed + 3,
      fields := m.fields.(
        writes := m.fields.writes + [WriteArguments(s[m.consumed].msg)],
        timerResets := m.fields.timerResets + [setup.backoff(0)]))
    ensures Exec(setup, m, s) == Exec(setup, m5, s)
  {
    var m1 := Step(setup, m, s[m.consumed]);
    ExecStep(setup, m, s);
    var m2 := StartWrite(m1, s[m.consumed].msg);
    ExecMoves(setup, m1, s);
    var m3 := Step(setup, m2, WriteSucceeded);
    ExecStep(setup, m2, s);
    var m4 := ResetTimer(setup, m3);
    ExecMoves(setup, m3, s);
    m5 := Step(setup, m4, TimerFired);
    ExecStep(setup, m4, s);
  }

  /**
   * A fresh run against a drain that accepts the first connect and every write:
   * exactly one connect, every message written once and in order, no error
   * report, and the dropped count unchanged.
   */
  lemma ImmediateDelivery(setup: Setup, f: SinkFields, msgs: seq<LogMessage>)
    requires !f.disconnected
    ensures var r := Exec(setup, Start(f), [TimerFired, ConnectSucceeded] + Deliveries(msgs));
      r.fields.writes == f.writes + WriteCalls(msgs) &&
      r.fields.dropped == f.dropped && r.fields.reports == f.reports &&
      r.fields.connectCalls == f.connectCalls + 1 && r.fields.writerCloses == f.writerCloses &&
      r.phase == AwaitMessage
  {
    var s := [TimerFired, ConnectSucceeded] + Deliveries(msgs);
    assert s[0] == TimerFired && s[1] == ConnectSucceeded;
    assert s[2..] == Deliveries(msgs);
    var m1 := ResetTimer(setup, Start(f));
    ExecMoves(setup, Start(f), s);
    var m2 := Step(setup, m1, TimerFired);
    ExecStep(setup, m1, s);
    var m3 := Step(setup, m2, ConnectSucceeded);
    ExecStep(setup, m2, s);
    DeliveriesInOrder(setup, m3, s, msgs);
  }
}
