/** What the dispatcher makes of one queued record before anything is called: the
    fields its flyweight reads, in reading order, and the conductor call they add up to. */
module Decoding {
  import opened Commands
  import opened Routing

  /** A record is ignored (unrecognised type), malformed (a field read threw), or a
      command for the conductor. */
  datatype Decoded = Ignored | Malformed(exception: Exception) | Command(call: Call)

  /** The message of the first field read that throws, taking the fields in the order
      the dispatcher reads them for this message type. */
  function FirstFault(m: MsgType, p: Payload): Option<string> {
    match m
    case AddPublication =>
      p.correlationId.Fault().Or(p.streamId.Fault()).Or(p.clientId.Fault()).Or(p.channel.Fault())
    case AddSubscription =>
      p.correlationId.Fault().Or(p.streamId.Fault()).Or(p.clientId.Fault()).Or(p.channel.Fault())
    case RemovePublication =>
      p.correlationId.Fault().Or(p.registrationId.Fault())
    case RemoveSubscription =>
      p.correlationId.Fault().Or(p.registrationId.Fault())
    case AddDestination =>
      p.correlationId.Fault().Or(p.registrationCorrelationId.Fault()).Or(p.channel.Fault())
    case RemoveDestination =>
      p.correlationId.Fault().Or(p.registrationCorrelationId.Fault()).Or(p.channel.Fault())
    case ClientKeepalive =>
      p.clientId.Fault()
    case Unrecognised(_) =>
      None
  }

  /** The conductor call a command type makes once all its fields are read. */
  function CallOf(m: MsgType, p: Payload): Call
    requires !m.Unrecognised? && FirstFault(m, p).None?
  {
    match m
    case AddPublication =>
      PublicationCall(p.channel.value, p.streamId.value, p.correlationId.value, p.clientId.value)
    case RemovePublication =>
      OnRemovePublication(p.registrationId.value, p.correlationId.value)
    case AddSubscription =>
      SubscriptionCall(p.channel.value, p.streamId.value, p.correlationId.value, p.clientId.value)
    case RemoveSubscription =>
      OnRemoveSubscription(p.registrationId.value, p.correlationId.value)
    case AddDestination =>
      OnAddDestination(p.registrationCorrelationId.value, p.channel.value, p.correlationId.value)
    case RemoveDestination =>
      OnRemoveDestination(p.registrationCorrelationId.value, p.channel.value, p.correlationId.value)
    case ClientKeepalive =>
      OnClientKeepalive(p.clientId.value)
  }

  /** Decoding one record. An unrecognised type is ignored; a recognised one either
      throws a plain (never a control-protocol) exception from a field read, or yields
      exactly one call, and that call belongs to the record's own type. */
  function Decode(r: Record): (d: Decoded)
    ensures d.Ignored? <==> r.msgTypeId.Unrecognised?
    ensures d.Malformed? ==> d.exception.OtherException?
    ensures d.Command? ==> d.call.Command() == r.msgTypeId
  {
    if r.msgTypeId.Unrecognised? then Ignored
    else
      match FirstFault(r.msgTypeId, r.payload)
      case Some(reason) => Malformed(OtherException(reason))
      case None => Command(CallOf(r.msgTypeId, r.payload))
  }

  /** The correlation id in hand when the record's try block ends: it starts at 0 and is
      overwritten by the first field read of every type but the keepalive. */
  function ReportedCorrelationId(r: Record): Long {
    if r.msgTypeId.CarriesCorrelationId() && r.payload.correlationId.Present? then
      r.payload.correlationId.value
    else
      0
  }

  /** The correlation id echoed back with an error is the one the conductor was given. */
  lemma EchoedCorrelationId(r: Record)
    requires Decode(r).Command? && r.msgTypeId.CarriesCorrelationId()
    ensures ReportedCorrelationId(r) == Decode(r).call.correlationId
  {
  }

  /** An add-publication with readable fields is one IPC or network publication call,
      IPC exactly when the channel starts with the IPC channel, fields unchanged. */
  lemma AddPublicationRouted(p: Payload)
    requires p.correlationId.Present? && p.streamId.Present? && p.clientId.Present? && p.channel.Present?
    ensures var d := Decode(Record(AddPublication, p));
      && d.Command?
      && (d.call.OnAddIpcPublication? <==> StartsWith(p.channel.value, IPC_CHANNEL))
      && (d.call.OnAddNetworkPublication? <==> !StartsWith(p.channel.value, IPC_CHANNEL))
      && d.call.channel == p.channel.value && d.call.streamId == p.streamId.value
      && d.call.correlationId == p.correlationId.value && d.call.clientId == p.clientId.value
  {
  }

  /** An add-subscription with readable fields is exactly one of the IPC, spy or network
      subscription calls; a spy call is handed the channel minus the spy prefix. */
  lemma AddSubscriptionRouted(p: Payload)
    requires p.correlationId.Present? && p.streamId.Present? && p.clientId.Present? && p.channel.Present?
    ensures var d := Decode(Record(AddSubscription, p));
      && d.Command?
      && (d.call.OnAddIpcSubscription? <==> StartsWith(p.channel.value, IPC_CHANNEL))
      && (d.call.OnAddSpySubscription? <==>
            !StartsWith(p.channel.value, IPC_CHANNEL) && StartsWith(p.channel.value, SPY_PREFIX))
      && (d.call.OnAddNetworkSubscription? <==>
            !StartsWith(p.channel.value, IPC_CHANNEL) && !StartsWith(p.channel.value, SPY_PREFIX))
      && (d.call.OnAddSpySubscription? ==> SPY_PREFIX + d.call.channel == p.channel.value)
      && (!d.call.OnAddSpySubscription? ==> d.call.channel == p.channel.value)
      && d.call.streamId == p.streamId.value
      && d.call.correlationId == p.correlationId.value && d.call.clientId == p.clientId.value
  {
  }

  /** The remove commands pass (registration id, correlation id) on unchanged. */
  lemma RemoveCommandsPassThrough(p: Payload)
    requires p.correlationId.Present? && p.registrationId.Present?
    ensures Decode(Record(RemovePublication, p))
         == Command(OnRemovePublication(p.registrationId.value, p.correlationId.value))
    ensures Decode(Record(RemoveSubscription, p))
         == Command(OnRemoveSubscription(p.registrationId.value, p.correlationId.value))
  {
  }

  /** The destination commands pass (registration correlation id, channel, correlation id)
      on unchanged. */
  lemma DestinationCommandsPassThrough(p: Payload)
    requires p.correlationId.Present? && p.registrationCorrelationId.Present? && p.channel.Present?
    ensures Decode(Record(AddDestination, p))
         == Command(OnAddDestination(p.registrationCorrelationId.value, p.channel.value, p.correlationId.value))
    ensures Decode(Record(RemoveDestination, p))
         == Command(OnRemoveDestination(p.registrationCorrelationId.value, p.channel.value, p.correlationId.value))
  {
  }

  /** A keepalive reads nothing but the client id, forwards only that, and leaves the
      correlation id at 0 whatever the other fields hold. */
  lemma KeepaliveForwardsClientIdOnly(p: Payload)
    requires p.clientId.Present?
    ensures Decode(Record(ClientKeepalive, p)) == Command(OnClientKeepalive(p.clientId.value))
    ensures ReportedCorrelationId(Record(ClientKeepalive, p)) == 0
  {
  }

  /** A remove-publication whose correlation id cannot be read fails with a plain
      exception and reports correlation id 0. */
  lemma RemovePublicationEarlyFault(p: Payload)
    requires p.correlationId.Unreadable?
    ensures Decode(Record(RemovePublication, p)) == Malformed(OtherException(p.correlationId.reason))
    ensures ReportedCorrelationId(Record(RemovePublication, p)) == 0
  {
  }

  /** A fault after the correlation id was read reports that correlation id. */
  lemma LateFaultKeepsCorrelationId(m: MsgType, p: Payload)
    requires m.CarriesCorrelationId() && p.correlationId.Present?
    requires FirstFault(m, p).Some?
    ensures Decode(Record(m, p)).Malformed?
    ensures ReportedCorrelationId(Record(m, p)) == p.correlationId.value
  {
  }
}
