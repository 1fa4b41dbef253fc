/**
 * The parts of dropsonde's event envelopes that the syslog sink reads:
 * the envelope's type tag and the log message it carries.
 */
module Events {
  import opened Int64

  datatype Option<T> = None | Some(value: T)

  newtype byte = x: int | 0 <= x < 256

  /** The envelope type tags of dropsonde's `Envelope_EventType`. */
  datatype EventType =
    | Heartbeat
    | HttpStart
    | HttpStop
    | HttpStartStop
    | LogMessageEvent
    | ValueMetric
    | CounterEvent
    | Error
    | ContainerMetric

  /** The wire values of `LogMessage_OUT` and `LogMessage_ERR`. */
  const OutCode: int := 1
  const ErrCode: int := 2

  /** A wire value of the message-type enum other than the two known ones. */
  type OtherCode = c: int | c != OutCode && c != ErrCode

  /** `LogMessage_OUT`, `LogMessage_ERR`, or any other wire value of the enum. */
  datatype MessageType = Out | Err | Unrecognized(code: OtherCode)

  /** The message type a wire value of the enum decodes to. */
  function MessageTypeOf(code: int): (t: MessageType)
    ensures t == Out <==> code == OutCode
    ensures t == Err <==> code == ErrCode
    ensures t.Unrecognized? ==> t.code == code
  {
    if code == OutCode then Out else if code == ErrCode then Err else Unrecognized(code)
  }

  datatype LogMessage = LogMessage(
    message: seq<byte>,
    messageType: MessageType,
    timestamp: int64,
    appId: string,
    sourceType: string,
    sourceInstance: string)

  datatype Envelope = Envelope(
    origin: string,
    eventType: EventType,
    logMessage: Option<LogMessage>)

  predicate IsLogEnvelope(e: Envelope) {
    e.eventType == LogMessageEvent
  }
}
