/** The driver's client listener adapter: drains the to-driver command queue a bounded
    number of records at a time and dispatches each record to the driver conductor,
    isolating every fault to the record that caused it. */
module Adapter {
  import opened Commands
  import opened Routing
  import opened Decoding
  import opened Dispatch

  /** The most records one `Receive` hands to `OnMessage`. */
  const MESSAGE_COUNT_LIMIT: nat := 10

  /** The many-to-one command queue clients write to, as a first-in first-out sequence
      of records. */
  class CommandQueue {
    var records: seq<Record>

    constructor ()
      ensures records == []
    {
      records := [];
    }

    /** A client appends one record. */
    method Write(r: Record)
      modifies this
      ensures records == old(records) + [r]
    {
      records := records + [r];
    }

    /** The consumer takes the oldest record. */
    method Take() returns (r: Record)
      requires records != []
      modifies this
      ensures r == old(records)[0] && records == old(records)[1..]
    {
      r := records[0];
      records := records[1..];
    }
  }

  class ClientListenerAdapter {
    const toDriverCommands: CommandQueue
    const conductor: Conductor
    /** The driver's error counter. */
    var errors: nat
    /** The driver's error log, one entry per recorded exception. */
    var errorLog: seq<Exception>
    /** Every conductor call made so far, oldest first. */
    var conductorCalls: seq<Call>
    /** Every error response sent to clients so far, oldest first. */
    var clientErrors: seq<ErrorResponse>

    /** The error counter and the error log are the driver's, handed in by the caller,
        and may already hold counts and entries. */
    constructor (errors: nat, errorLog: seq<Exception>, toDriverCommands: CommandQueue, conductor: Conductor)
      ensures this.toDriverCommands == toDriverCommands && this.conductor == conductor
      ensures State() == Observed(errors, errorLog, [], [])
    {
      this.toDriverCommands := toDriverCommands;
      this.conductor := conductor;
      this.errors := errors;
      this.errorLog := errorLog;
      conductorCalls := [];
      clientErrors := [];
    }

    function State(): Observed
      reads this
    {
      Observed(errors, errorLog, conductorCalls, clientErrors)
    }

    /** Handles the oldest records of the queue, at most MESSAGE_COUNT_LIMIT of them, in
        queue order, and returns how many it handled; the rest stay queued in order. */
    method Receive() returns (messagesRead: nat)
      modifies this`errors, this`errorLog, this`conductorCalls, this`clientErrors, toDriverCommands
      ensures messagesRead == if |old(toDriverCommands.records)| < MESSAGE_COUNT_LIMIT
                              then |old(toDriverCommands.records)| else MESSAGE_COUNT_LIMIT
      ensures toDriverCommands.records == old(toDriverCommands.records)[messagesRead..]
      ensures State() == Drain(conductor, old(State()), old(toDriverCommands.records)[..messagesRead])
    {
      ghost var queue := toDriverCommands.records;
      messagesRead := 0;
      while messagesRead < MESSAGE_COUNT_LIMIT && toDriverCommands.records != []
        invariant messagesRead <= MESSAGE_COUNT_LIMIT && messagesRead <= |queue|
        invariant toDriverCommands.records == queue[messagesRead..]
        invariant State() == Drain(conductor, old(State()), queue[..messagesRead])
        decreases MESSAGE_COUNT_LIMIT - messagesRead
      {
        var record := toDriverCommands.Take();
        OnMessage(record.msgTypeId, record.payload);
        DrainAppend(conductor, old(State()), queue[..messagesRead], [record]);
        assert queue[..messagesRead] + [record] == queue[..messagesRead + 1];
        messagesRead := messagesRead + 1;
      }
    }

    /** Handles one record: the try block, then the catch arms. */
    method OnMessage(msgTypeId: MsgType, payload: Payload)
      modifies this`errors, this`errorLog, this`conductorCalls, this`clientErrors
      ensures State() == HandleMessage(conductor, old(State()), Record(msgTypeId, payload))
    {
      var status, correlationId := TryDispatch(msgTypeId, payload);
      match status
      case Completed =>
      case Threw(ControlProtocolException(code, message)) =>
        clientErrors := clientErrors + [ErrorResponse(code, message, correlationId)];
        RecordError(status.exception);
      case Threw(OtherException(message)) =>
        clientErrors := clientErrors + [ErrorResponse(GenericError, message, correlationId)];
        RecordError(status.exception);
    }

    /** The try block of message handling: decode the fields in order, keeping the
        correlation id once read, and make the type's one conductor call. A throw ends
        the block with the correlation id read so far. */
    method TryDispatch(msgTypeId: MsgType, payload: Payload) returns (status: Status, correlationId: Long)
      modifies this`conductorCalls
      ensures conductorCalls == old(conductorCalls) + CallsMade(Record(msgTypeId, payload))
      ensures status == TryOutcome(conductor, old(conductorCalls), Record(msgTypeId, payload))
      ensures correlationId == ReportedCorrelationId(Record(msgTypeId, payload))
    {
      status, correlationId := Completed, 0;
      match msgTypeId
      case AddPublication =>
        correlationId :- payload.correlationId;
        var streamId :- payload.streamId;
        var clientId :- payload.clientId;
        var channel :- payload.channel;
        status := InvokeConductor(PublicationCall(channel, streamId, correlationId, clientId));
      case RemovePublication =>
        correlationId :- payload.correlationId;
        var registrationId :- payload.registrationId;
        status := InvokeConductor(OnRemovePublication(registrationId, correlationId));
      case AddSubscription =>
        correlationId :- payload.correlationId;
        var streamId :- payload.streamId;
        var clientId :- payload.clientId;
        var channel :- payload.channel;
        status := InvokeConductor(SubscriptionCall(channel, streamId, correlationId, clientId));
      case RemoveSubscription =>
        correlationId :- payload.correlationId;
        var registrationId :- payload.registrationId;
        status := InvokeConductor(OnRemoveSubscription(registrationId, correlationId));
      case AddDestination =>
        correlationId :- payload.correlationId;
        var registrationCorrelationId :- payload.registrationCorrelationId;
        var channel :- payload.channel;
        status := InvokeConductor(OnAddDestination(registrationCorrelationId, channel, correlationId));
      case RemoveDestination =>
        correlationId :- payload.correlationId;
        var registrationCorrelationId :- payload.registrationCorrelationId;
        var channel :- payload.channel;
        status := InvokeConductor(OnRemoveDestination(registrationCorrelationId, channel, correlationId));
      case ClientKeepalive =>
        var clientId :- payload.clientId;
        status := InvokeConductor(OnClientKeepalive(clientId));
      case Unrecognised(_) =>
    }

    /** One synchronous call into the driver conductor. */
    method InvokeConductor(call: Call) returns (status: Status)
      modifies this`conductorCalls
      ensures conductorCalls == old(conductorCalls) + [call]
      ensures status == conductor(old(conductorCalls), call)
    {
      status := conductor(conductorCalls, call);
      conductorCalls := conductorCalls + [call];
    }

    /** Counts the exception and logs it. */
    method RecordError(ex: Exception)
      modifies this`errors, this`errorLog
      ensures errors == old(errors) + 1 && errorLog == old(errorLog) + [ex]
    {
      errors := errors + 1;
      errorLog := errorLog + [ex];
    }
  }

  /** Clients write twelve records to the queue; the first receive handles the first ten
      of them, the second the last two, and together they handle all twelve in the order
      they were written. */
  method FillAndReceiveTwice(conductor: Conductor, records: seq<Record>)
    requires |records| == 12
  {
    var queue := new CommandQueue();
    var i := 0;
    while i < 12
      invariant 0 <= i <= 12
      invariant queue.records == records[..i]
    {
      queue.Write(records[i]);
      assert records[..i] + [records[i]] == records[..i + 1];
      i := i + 1;
    }
    assert records[..12] == records;
    var adapter := new ClientListenerAdapter(0, [], queue, conductor);
    ghost var start := adapter.State();
    ghost var all := queue.records;
    var first := adapter.Receive();
    assert first == 10 && queue.records == records[10..];
    assert adapter.State() == Drain(conductor, start, records[..10]);
    var second := adapter.Receive();
    assert second == 2 && queue.records == [];
    DrainResumes(conductor, start, all, 10);
    assert all[10..][..2] == all[10..];
    assert adapter.State() == Drain(conductor, start, all);
  }
}
