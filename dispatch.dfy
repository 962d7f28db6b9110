/** The dispatcher's observable behaviour as functions: what handling one record does to
    the error counter, the error log, the conductor and the client responses, and what
    draining a run of records does. The adapter's methods are proved against these. */
module Dispatch {
  import opened Commands
  import opened Decoding

  /** The driver conductor as seen from the dispatcher: how a call ends depends on the
      calls it has received before. */
  type Conductor = (seq<Call>, Call) -> Status

  /** Everything the dispatcher's work can be observed through. */
  datatype Observed = Observed(
    errors: nat,
    errorLog: seq<Exception>,
    conductorCalls: seq<Call>,
    clientErrors: seq<ErrorResponse>)

  /** The conductor calls one record gives rise to: none or one. */
  function CallsMade(r: Record): seq<Call> {
    if Decode(r).Command? then [Decode(r).call] else []
  }

  /** How the try block of message handling ends, given the calls already made. */
  function TryOutcome(conductor: Conductor, history: seq<Call>, r: Record): Status {
    match Decode(r)
    case Ignored => Completed
    case Malformed(ex) => Threw(ex)
    case Command(call) => conductor(history, call)
  }

  /** The response for a caught exception: its own code for a control-protocol
      exception, the generic code for any other. */
  function ResponseTo(ex: Exception, correlationId: Long): ErrorResponse {
    match ex
    case ControlProtocolException(code, message) => ErrorResponse(code, message, correlationId)
    case OtherException(message) => ErrorResponse(GenericError, message, correlationId)
  }

  /** Handling one record. */
  function HandleMessage(conductor: Conductor, s: Observed, r: Record): Observed {
    var tried := s.(conductorCalls := s.conductorCalls + CallsMade(r));
    match TryOutcome(conductor, s.conductorCalls, r)
    case Completed => tried
    case Threw(ex) =>
      tried.(
        clientErrors := tried.clientErrors + [ResponseTo(ex, ReportedCorrelationId(r))],
        errors := tried.errors + 1,
        errorLog := tried.errorLog + [ex])
  }

  /** Handling a run of records, first to last. */
  function Drain(conductor: Conductor, s: Observed, records: seq<Record>): Observed
    decreases |records|
  {
    if records == [] then s
    else Drain(conductor, HandleMessage(conductor, s, records[0]), records[1..])
  }

  /** The conductor calls a run of records gives rise to, in queue order. */
  function DecodedCalls(records: seq<Record>): seq<Call>
    decreases |records|
  {
    if records == [] then [] else CallsMade(records[0]) + DecodedCalls(records[1..])
  }

  /** How many records of a run fail to decode. */
  function MalformedCount(records: seq<Record>): nat
    decreases |records|
  {
    if records == [] then 0
    else (if Decode(records[0]).Malformed? then 1 else 0) + MalformedCount(records[1..])
  }

  /** How many of `calls`, made in turn after `history`, the conductor ends by throwing. */
  function ConductorFailures(conductor: Conductor, history: seq<Call>, calls: seq<Call>): nat
    decreases |calls|
  {
    if calls == [] then 0
    else (if conductor(history, calls[0]).Threw? then 1 else 0)
         + ConductorFailures(conductor, history + [calls[0]], calls[1..])
  }

  /** One record: the counter and the log grow by one and the client gets one response
      exactly when the try block threw, and nothing changes there otherwise; the response
      carries the exception's code (generic for anything but a control-protocol
      exception), its message and the correlation id in hand. */
  lemma HandleMessageEffect(conductor: Conductor, s: Observed, r: Record)
    ensures var u := HandleMessage(conductor, s, r);
      && u.conductorCalls == s.conductorCalls + CallsMade(r)
      && |CallsMade(r)| <= 1
      && (TryOutcome(conductor, s.conductorCalls, r).Completed? ==>
            u.errors == s.errors && u.errorLog == s.errorLog && u.clientErrors == s.clientErrors)
      && (TryOutcome(conductor, s.conductorCalls, r).Threw? ==>
            var ex := TryOutcome(conductor, s.conductorCalls, r).exception;
            && u.errors == s.errors + 1
            && u.errorLog == s.errorLog + [ex]
            && u.clientErrors == s.clientErrors + [ErrorResponse(
                 if ex.ControlProtocolException? then ex.code else GenericError,
                 ex.message,
                 ReportedCorrelationId(r))])
  {
  }

  /** A record of unrecognised type changes nothing at all. */
  lemma UnrecognisedIgnored(conductor: Conductor, s: Observed, msgTypeId: int, p: Payload)
    ensures HandleMessage(conductor, s, Record(Unrecognised(msgTypeId), p)) == s
  {
  }

  /** A rejected command: the client hears the conductor's code and message with the
      record's correlation id, once; the counter grows by one and the exception is logged. */
  lemma RejectionReported(conductor: Conductor, s: Observed, r: Record, code: ErrorCode, message: string)
    requires Decode(r).Command?
    requires conductor(s.conductorCalls, Decode(r).call) == Threw(ControlProtocolException(code, message))
    ensures var u := HandleMessage(conductor, s, r);
      && u.conductorCalls == s.conductorCalls + [Decode(r).call]
      && u.clientErrors == s.clientErrors + [ErrorResponse(code, message, ReportedCorrelationId(r))]
      && u.errors == s.errors + 1
      && u.errorLog == s.errorLog + [ControlProtocolException(code, message)]
  {
  }

  /** A keepalive the conductor accepts produces no response and no error. */
  lemma KeepaliveSilentOnSuccess(conductor: Conductor, s: Observed, p: Payload)
    requires p.clientId.Present?
    requires conductor(s.conductorCalls, OnClientKeepalive(p.clientId.value)).Completed?
    ensures HandleMessage(conductor, s, Record(ClientKeepalive, p))
         == s.(conductorCalls := s.conductorCalls + [OnClientKeepalive(p.clientId.value)])
  {
  }

  /** Draining `a` and then `b` is draining `a + b`. */
  lemma {:induction false} DrainAppend(conductor: Conductor, s: Observed, a: seq<Record>, b: seq<Record>)
    ensures Drain(conductor, s, a + b) == Drain(conductor, Drain(conductor, s, a), b)
    decreases |a|
  {
    if a == [] {
      assert a + b == b;
    } else {
      assert (a + b)[0] == a[0];
      assert (a + b)[1..] == a[1..] + b;
      DrainAppend(conductor, HandleMessage(conductor, s, a[0]), a[1..], b);
    }
  }

  /** A bounded drain followed by a drain of what it left behind handles the whole
      queue, in its original order. */
  lemma DrainResumes(conductor: Conductor, s: Observed, queue: seq<Record>, n: nat)
    requires n <= |queue|
    ensures Drain(conductor, Drain(conductor, s, queue[..n]), queue[n..]) == Drain(conductor, s, queue)
  {
    assert queue[..n] + queue[n..] == queue;
    DrainAppend(conductor, s, queue[..n], queue[n..]);
  }

  /** Fault isolation, for the conductor: a drain makes exactly the calls of its
      decodable records, in queue order, whatever the conductor answers; a record whose
      handling threw never keeps a later record from being dispatched. */
  lemma {:induction false} DrainCalls(conductor: Conductor, s: Observed, records: seq<Record>)
    ensures Drain(conductor, s, records).conductorCalls == s.conductorCalls + DecodedCalls(records)
    decreases |records|
  {
    if records != [] {
      var t := HandleMessage(conductor, s, records[0]);
      DrainCalls(conductor, t, records[1..]);
      assert s.conductorCalls + CallsMade(records[0]) + DecodedCalls(records[1..])
          == s.conductorCalls + DecodedCalls(records);
    }
  }

  /** Error accounting over a drain: counter, log and client responses only grow, and
      grow by the same amount, at most one per record. */
  lemma {:induction false} DrainAccounting(conductor: Conductor, s: Observed, records: seq<Record>)
    ensures var u := Drain(conductor, s, records);
      && s.errorLog <= u.errorLog
      && s.clientErrors <= u.clientErrors
      && s.conductorCalls <= u.conductorCalls
      && u.errors - s.errors == |u.errorLog| - |s.errorLog| == |u.clientErrors| - |s.clientErrors|
      && u.errors - s.errors <= |records|
    decreases |records|
  {
    if records != [] {
      var t := HandleMessage(conductor, s, records[0]);
      DrainAccounting(conductor, t, records[1..]);
    }
  }

  /** The exact error count of a drain: one per record that fails to decode plus one per
      conductor call that throws. */
  lemma {:induction false} DrainErrorCount(conductor: Conductor, s: Observed, records: seq<Record>)
    ensures Drain(conductor, s, records).errors
         == s.errors + MalformedCount(records)
            + ConductorFailures(conductor, s.conductorCalls, DecodedCalls(records))
    decreases |records|
  {
    if records != [] {
      var r := records[0];
      var t := HandleMessage(conductor, s, r);
      DrainErrorCount(conductor, t, records[1..]);
      assert Drain(conductor, s, records) == Drain(conductor, t, records[1..]);
      assert MalformedCount(records) == (if Decode(r).Malformed? then 1 else 0) + MalformedCount(records[1..]);
      if Decode(r).Command? {
        assert DecodedCalls(records) == [Decode(r).call] + DecodedCalls(records[1..]);
        assert ([Decode(r).call] + DecodedCalls(records[1..]))[1..] == DecodedCalls(records[1..]);
      } else {
        assert DecodedCalls(records) == DecodedCalls(records[1..]);
        assert t.conductorCalls == s.conductorCalls;
        assert t.errors == s.errors + (if Decode(r).Malformed? then 1 else 0);
      }
    }
  }
}
