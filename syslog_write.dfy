/**
 * What the sink hands to its syslog writer: the envelope filter that feeds the
 * buffer, the priority a log message is written with, and the arguments of one
 * `Write` call.
 */
module SyslogWrite {
  import opened Int64
  import opened Events

  /**
   * The priority a log message is written with: 14 for stdout, 11 for stderr and
   * -1 for any other message type.
   */
  function MessagePriorityValue(msg: LogMessage): (p: int)
    ensures msg.messageType == Out ==> p == 14
    ensures msg.messageType == Err ==> p == 11
    ensures msg.messageType.Unrecognized? ==> p == -1
  {
    match msg.messageType
    case Out => 14
    case Err => 11
    case Unrecognized(_) => -1
  }

  /** By wire value: 14 for the value of OUT, 11 for that of ERR, and -1 for every other value. */
  lemma PriorityOfWireValue(msg: LogMessage, code: int)
    requires msg.messageType == MessageTypeOf(code)
    ensures MessagePriorityValue(msg) == (if code == OutCode then 14 else if code == ErrCode then 11 else -1)
  {
  }

  /** Facility and severity of a syslog PRI value (section 6.2.1 of RFC 5424). */
  function Facility(pri: nat): nat { pri / 8 }
  function Severity(pri: nat): nat { pri % 8 }

  /**
   * Both known priorities are user-level messages (facility 1); stdout is
   * informational (severity 6) and stderr is an error (severity 3).
   */
  lemma PriorityIsUserLevel(msg: LogMessage)
    requires !msg.messageType.Unrecognized?
    ensures MessagePriorityValue(msg) >= 0
    ensures Facility(MessagePriorityValue(msg)) == 1
    ensures Severity(MessagePriorityValue(msg)) == (if msg.messageType == Out then 6 else 3)
  {
  }

  /** The arguments of one call of the writer's `Write`. */
  datatype WriteCall = WriteCall(
    priority: int,
    message: seq<byte>,
    sourceType: string,
    sourceInstance: string,
    timestamp: int64)

  /**
   * The `Write` call `sendMessage` makes for a log message: its priority, then
   * the payload, source type, source instance and timestamp of the message.
   */
  function WriteArguments(msg: LogMessage): (w: WriteCall)
    ensures w.message == msg.message && w.timestamp == msg.timestamp
    ensures w.sourceType == msg.sourceType && w.sourceInstance == msg.sourceInstance
    ensures w.priority == 14 <==> msg.messageType == Out
    ensures w.priority == 11 <==> msg.messageType == Err
    ensures w.priority == -1 <==> msg.messageType.Unrecognized?
  {
    WriteCall(MessagePriorityValue(msg), msg.message, msg.sourceType, msg.sourceInstance, msg.timestamp)
  }

  /** The `Write` calls for a sequence of messages, one per message, in order. */
  function WriteCalls(msgs: seq<LogMessage>): (ws: seq<WriteCall>)
    ensures |ws| == |msgs|
  {
    if msgs == [] then [] else [WriteArguments(msgs[0])] + WriteCalls(msgs[1..])
  }

  /** The call at position `k` writes the message at position `k`. */
  lemma {:induction false} WriteCallsAt(msgs: seq<LogMessage>, k: nat)
    requires k < |msgs|
    ensures WriteCalls(msgs)[k] == WriteArguments(msgs[k])
  {
    if k > 0 {
      WriteCallsAt(msgs[1..], k - 1);
    }
  }

  /**
   * The envelopes the sink's filtering goroutine forwards to the buffer, in
   * order: every envelope of the feed whose type is LogMessage.
   */
  function Forwarded(feed: seq<Envelope>): (out: seq<Envelope>)
    ensures |out| <= |feed|
    ensures forall k :: 0 <= k < |out| ==> IsLogEnvelope(out[k])
  {
    if feed == [] then []
    else (if IsLogEnvelope(feed[0]) then [feed[0]] else []) + Forwarded(feed[1..])
  }

  /** An envelope is forwarded exactly when it is in the feed and is a log envelope. */
  lemma {:induction false} ForwardedMembership(feed: seq<Envelope>, e: Envelope)
    ensures e in Forwarded(feed) <==> e in feed && IsLogEnvelope(e)
  {
    if feed != [] {
      ForwardedMembership(feed[1..], e);
      assert feed == [feed[0]] + feed[1..];
    }
  }

  /** Filtering a concatenated feed filters each part and keeps their order. */
  lemma {:induction false} ForwardedConcat(a: seq<Envelope>, b: seq<Envelope>)
    ensures Forwarded(a + b) == Forwarded(a) + Forwarded(b)
  {
    if a == [] {
      assert a + b == b;
    } else {
      assert (a + b)[0] == a[0];
      assert (a + b)[1..] == a[1..] + b;
      ForwardedConcat(a[1..], b);
    }
  }

  /** A feed of log envelopes only passes the filter unchanged. */
  lemma {:induction false} ForwardedKeepsLogFeed(feed: seq<Envelope>)
    requires forall k :: 0 <= k < |feed| ==> IsLogEnvelope(feed[k])
    ensures Forwarded(feed) == feed
  {
    if feed != [] {
      ForwardedKeepsLogFeed(feed[1..]);
    }
  }

  /** Filtering twice is filtering once. */
  lemma ForwardedIdempotent(feed: seq<Envelope>)
    ensures Forwarded(Forwarded(feed)) == Forwarded(feed)
  {
    ForwardedKeepsLogFeed(Forwarded(feed));
  }
}
