/** The values that travel through the driver's command dispatcher: the records clients
    put on the to-driver command queue, the calls the dispatcher makes on the driver
    conductor, the exceptions those can raise and the error responses sent back. */
module Commands {

  /** Java `long` and `int`: the widths of the decoded numeric fields. */
  type Long = x: int | -0x8000_0000_0000_0000 <= x < 0x8000_0000_0000_0000
  type Int = x: int | -0x8000_0000 <= x < 0x8000_0000

  datatype Option<+T> = None | Some(value: T) {
    /** The first of two possible values that is present. */
    function Or(other: Option<T>): Option<T> {
      if Some? then this else other
    }
  }

  /** The message type id of a queued record. The seven command types of the control
      protocol are distinct tags; any other id is carried as `Unrecognised`, whose integer
      stands only for ids other than those of the seven named commands. */
  datatype MsgType =
    | AddPublication
    | RemovePublication
    | AddSubscription
    | RemoveSubscription
    | AddDestination
    | RemoveDestination
    | ClientKeepalive
    | Unrecognised(msgTypeId: int)
  {
    /** The flyweight for this type reads a correlation id before anything else. */
    predicate CarriesCorrelationId() {
      !ClientKeepalive? && !Unrecognised?
    }
  }

  /** Error codes sent back to clients: GENERIC_ERROR, and the other constants of the
      client's error-code enumeration as opaque ordinals; a `Code` ordinal stands only for
      codes other than GENERIC_ERROR. */
  datatype ErrorCode = GenericError | Code(ordinal: nat)

  /** What a call can throw: a ControlProtocolException carries its own error code,
      every other exception only a message. */
  datatype Exception =
    | ControlProtocolException(code: ErrorCode, message: string)
    | OtherException(message: string)

  /** How a block of code ended: normally, or by throwing. */
  datatype Status = Completed | Threw(exception: Exception) {
    predicate IsFailure() { Threw? }
    function PropagateFailure(): Status
      requires Threw?
    {
      this
    }
  }

  /** One accessor of a flyweight bound to a record: it yields the field's value, or the
      read throws (a truncated or malformed record) with the given message. */
  datatype Field<+T> = Present(value: T) | Unreadable(reason: string) {
    predicate IsFailure() { Unreadable? }
    function PropagateFailure(): Status
      requires Unreadable?
    {
      Threw(OtherException(reason))
    }
    function Extract(): T
      requires Present?
    {
      value
    }
    /** The message of the exception reading this field throws, if it throws. */
    function Fault(): Option<string> {
      if Unreadable? then Some(reason) else None
    }
  }

  /** The record body as the flyweights see it, one accessor per field. Which of them
      are read depends on the message type. */
  datatype Payload = Payload(
    correlationId: Field<Long>,
    clientId: Field<Long>,
    streamId: Field<Int>,
    registrationId: Field<Long>,
    registrationCorrelationId: Field<Long>,
    channel: Field<string>)

  /** One record of the to-driver command queue. */
  datatype Record = Record(msgTypeId: MsgType, payload: Payload)

  /** The driver conductor entry points, with their arguments. */
  datatype Call =
    | OnAddIpcPublication(channel: string, streamId: Int, correlationId: Long, clientId: Long)
    | OnAddNetworkPublication(channel: string, streamId: Int, correlationId: Long, clientId: Long)
    | OnRemovePublication(registrationId: Long, correlationId: Long)
    | OnAddIpcSubscription(channel: string, streamId: Int, correlationId: Long, clientId: Long)
    | OnAddSpySubscription(channel: string, streamId: Int, correlationId: Long, clientId: Long)
    | OnAddNetworkSubscription(channel: string, streamId: Int, correlationId: Long, clientId: Long)
    | OnRemoveSubscription(registrationId: Long, correlationId: Long)
    | OnAddDestination(registrationCorrelationId: Long, channel: string, correlationId: Long)
    | OnRemoveDestination(registrationCorrelationId: Long, channel: string, correlationId: Long)
    | OnClientKeepalive(clientId: Long)
  {
    /** The command type whose case in the dispatcher makes this call. */
    function Command(): MsgType {
      match this
      case OnAddIpcPublication(_, _, _, _) => AddPublication
      case OnAddNetworkPublication(_, _, _, _) => AddPublication
      case OnRemovePublication(_, _) => RemovePublication
      case OnAddIpcSubscription(_, _, _, _) => AddSubscription
      case OnAddSpySubscription(_, _, _, _) => AddSubscription
      case OnAddNetworkSubscription(_, _, _, _) => AddSubscription
      case OnRemoveSubscription(_, _) => RemoveSubscription
      case OnAddDestination(_, _, _) => AddDestination
      case OnRemoveDestination(_, _, _) => RemoveDestination
      case OnClientKeepalive(_) => ClientKeepalive
    }
  }

  /** An error response to a client: code, message and the correlation id it answers. */
  datatype ErrorResponse = ErrorResponse(code: ErrorCode, message: string, correlationId: Long)
}
