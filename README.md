# Aeron media driver: client command dispatcher

A Dafny model of `ClientListenerAdapter`, the media driver's front door for control
commands. Clients write binary command records to the to-driver command queue; the
driver's duty cycle calls `receive()`, which hands at most `MESSAGE_COUNT_LIMIT` (10)
records to `onMessage`. `onMessage` decodes the record with the flyweight for its
message type, routes add-publication and add-subscription commands by channel prefix,
and makes at most one call on the driver conductor: exactly one for a recognised record
whose fields all read, none for an unrecognised type or a field read that throws. Every exception raised while decoding or inside the conductor is caught at
the record boundary, answered to the client with an error response, counted and
logged; it never stops the records after it.

Files, one module each:

- `commands.dfy` (`Commands`): message types, the fields a flyweight reads (each read
  may throw), conductor calls, exceptions, error codes, error responses.
- `routing.dfy` (`Routing`): `IPC_CHANNEL`, `SPY_PREFIX`, Java's `startsWith` and
  `substring`, and the publication and subscription routing functions.
- `decoding.dfy` (`Decoding`): which fields each message type reads and in which order,
  the call they produce, and the correlation id in hand when a record's handling ends.
- `dispatch.dfy` (`Dispatch`): the observable effect of handling one record
  (`HandleMessage`) and a run of records (`Drain`), and the lemmas about them.
- `adapter.dfy` (`Adapter`): the `ClientListenerAdapter` class with its error counter,
  error log, conductor-call trace and client-response trace, and the command queue as a
  class holding a FIFO sequence. Its methods are proved against the functions of
  `Dispatch`. `FillAndReceiveTwice` is a client of these contracts: twelve arbitrary
  records written to the queue are handled ten, then two, in the order they were written.

The conductor is an oracle: a function from the calls it has already received and the
new call to how that call ends (returns, throws a `ControlProtocolException` with an
error code, or throws any other exception). Java's try/catch is modelled with Dafny's
`:-`: a field read that throws ends the try block, and the correlation id keeps the
value it had at that moment, as the Java local variable does.

`IPC_CHANNEL` is `"aeron:ipc"` and `SPY_PREFIX` is `"aeron-spy:"`, the values of the
client library's `CommonContext`; `CommonContext` itself is not part of this model.

The spy prefix is removed exactly once (ClientListenerAdapter.java:130-131), so a
channel that carries it twice is forwarded still starting with it
(`Routing.SpyPrefixStrippedOnce`).

## Model

| member | source | states |
|---|---|---|
| `Routing.PublicationCall` | aeron-driver/src/main/java/io/aeron/driver/ClientListenerAdapter.java:94-101 | an add-publication goes to the IPC publication call exactly when the channel starts with the IPC channel and to the network call otherwise; channel, stream id, correlation id and client id are passed unchanged |
| `Routing.SubscriptionCall` | aeron-driver/src/main/java/io/aeron/driver/ClientListenerAdapter.java:124-136 | an add-subscription goes to exactly one of IPC (channel starts with the IPC channel), spy (not IPC, starts with the spy prefix) or network (neither); a spy call receives the channel with the prefix removed, so prefix + forwarded channel = original, the other two receive it unchanged; the other fields pass unchanged |
| `Routing.PrefixesExclusive` | aeron-driver/src/main/java/io/aeron/driver/ClientListenerAdapter.java:124-128 | no channel starts with both the IPC channel and the spy prefix |
| `Routing.SpyRouteCharacterised` | aeron-driver/src/main/java/io/aeron/driver/ClientListenerAdapter.java:128-131 | every channel of the form spy prefix + rest is routed to the spy subscription call with channel rest |
| `Routing.SpyPrefixStrippedOnce` | aeron-driver/src/main/java/io/aeron/driver/ClientListenerAdapter.java:130-131 | the prefix is removed once: for a channel carrying it twice, the forwarded channel still starts with it |
| `Decoding.Decode` | aeron-driver/src/main/java/io/aeron/driver/ClientListenerAdapter.java:82-180 | an unrecognised type is ignored (the switch has no default case); a decode fault is never a control-protocol exception; a decoded call always belongs to the record's own type |
| `Decoding.EchoedCorrelationId` | aeron-driver/src/main/java/io/aeron/driver/ClientListenerAdapter.java:78-96 | for a decoded command other than the keepalive, the correlation id reported on an error is the one passed to the conductor |
| `Decoding.AddPublicationRouted` | aeron-driver/src/main/java/io/aeron/driver/ClientListenerAdapter.java:84-103 | a readable add-publication record yields one publication call, IPC exactly when the channel starts with the IPC channel, with all four fields unchanged |
| `Decoding.AddSubscriptionRouted` | aeron-driver/src/main/java/io/aeron/driver/ClientListenerAdapter.java:114-138 | a readable add-subscription record yields exactly one of the three subscription calls, chosen IPC first, then spy, then network; spy forwards the stripped channel |
| `Decoding.RemoveCommandsPassThrough` | aeron-driver/src/main/java/io/aeron/driver/ClientListenerAdapter.java:105-112 | remove-publication and remove-subscription pass (registration id, correlation id) unchanged |
| `Decoding.DestinationCommandsPassThrough` | aeron-driver/src/main/java/io/aeron/driver/ClientListenerAdapter.java:149-171 | add- and remove-destination pass (registration correlation id, channel, correlation id) unchanged |
| `Decoding.KeepaliveForwardsClientIdOnly` | aeron-driver/src/main/java/io/aeron/driver/ClientListenerAdapter.java:173-179 | a keepalive reads and forwards only the client id, whatever the other fields hold, and its correlation id stays 0 |
| `Decoding.RemovePublicationEarlyFault` | aeron-driver/src/main/java/io/aeron/driver/ClientListenerAdapter.java:105-110 | a remove-publication whose correlation id cannot be read fails with a plain exception and reports correlation id 0 |
| `Decoding.LateFaultKeepsCorrelationId` | aeron-driver/src/main/java/io/aeron/driver/ClientListenerAdapter.java:78-92 | a fault in a field read after the correlation id reports that correlation id |
| `Dispatch.HandleMessageEffect` | aeron-driver/src/main/java/io/aeron/driver/ClientListenerAdapter.java:182-198 | one record makes at most one conductor call; the counter and the log grow by one and the client gets one response exactly when the try block threw, with the exception's own code for a control-protocol exception and the generic code otherwise, its message and the correlation id in hand; nothing of that changes when it did not throw |
| `Dispatch.UnrecognisedIgnored` | aeron-driver/src/main/java/io/aeron/driver/ClientListenerAdapter.java:82-180 | an unrecognised message type causes no conductor call, no response and no error count |
| `Dispatch.RejectionReported` | aeron-driver/src/main/java/io/aeron/driver/ClientListenerAdapter.java:182-186 | a conductor rejection with code and message is answered once with that code, message and the record's correlation id, counted once, and the exception is appended to the error log |
| `Dispatch.KeepaliveSilentOnSuccess` | aeron-driver/src/main/java/io/aeron/driver/ClientListenerAdapter.java:173-178 | an accepted keepalive makes one conductor call with the client id and nothing else |
| `Dispatch.DrainAppend` | aeron-driver/src/main/java/io/aeron/driver/ClientListenerAdapter.java:66-69 | handling a run of records and then another is handling their concatenation |
| `Dispatch.DrainResumes` | aeron-driver/src/main/java/io/aeron/driver/ClientListenerAdapter.java:66-69 | a bounded drain followed by a drain of the records it left queued handles the whole queue in its original order |
| `Dispatch.DrainCalls` | aeron-driver/src/main/java/io/aeron/driver/ClientListenerAdapter.java:80-191 | the conductor receives exactly the calls of the decodable records, in queue order, whatever it answers: a fault never stops later records |
| `Dispatch.DrainAccounting` | aeron-driver/src/main/java/io/aeron/driver/ClientListenerAdapter.java:182-198 | over any drain the counter, the log and the responses grow by the same amount, at most one per record, and the log, responses and calls only grow |
| `Dispatch.DrainErrorCount` | aeron-driver/src/main/java/io/aeron/driver/ClientListenerAdapter.java:182-198 | the counter grows by the number of records that fail to decode plus the number of conductor calls that throw |
| `Adapter.ClientListenerAdapter.Receive` | aeron-driver/src/main/java/io/aeron/driver/ClientListenerAdapter.java:66-69 | handles the first min(10, pending) records in queue order, returns that count, leaves the rest queued in order, and the new state is the drain of those records |
| `Adapter.ClientListenerAdapter.OnMessage` | aeron-driver/src/main/java/io/aeron/driver/ClientListenerAdapter.java:72-192 | the new counter, log, call trace and response trace are those `HandleMessage` gives for the record |
| `Adapter.ClientListenerAdapter.TryDispatch` | aeron-driver/src/main/java/io/aeron/driver/ClientListenerAdapter.java:78-181 | reading the fields step by step makes the decoded call, ends as the decode or the conductor ends, and holds the correlation id read so far (0 before it is read, and for the keepalive) |
| `Adapter.ClientListenerAdapter.InvokeConductor` | aeron-driver/src/main/java/io/aeron/driver/ClientListenerAdapter.java:94-101 | one conductor call is appended to the trace and ends as the conductor answers given the calls before it |
| `Adapter.ClientListenerAdapter.RecordError` | aeron-driver/src/main/java/io/aeron/driver/ClientListenerAdapter.java:194-198 | the counter grows by one and the exception is appended to the log |
| `Adapter.ClientListenerAdapter.constructor` | aeron-driver/src/main/java/io/aeron/driver/ClientListenerAdapter.java:52-64 | binds the command queue, the conductor, and the error counter and error log handed in (which may already hold counts and entries); no conductor call made and no response sent yet |

## Left out

- `ClusteredServiceContainer` (configuration lookups, thread start, connection to the
  driver, directory handling, closing resources) is bootstrap glue and is not part of
  this model.
- The ring buffer's concurrency and memory layout: the queue is a sequential FIFO of
  records. `Receive` handles exactly min(10, pending) records; the real ring buffer may
  hand over fewer in one read when the records wrap round the end of its buffer, and it
  skips padding records; neither is modelled.
- Binary layouts of the command flyweights: each field accessor is abstract and either
  yields a value or throws. Re-binding a flyweight with `wrap` has no effect beyond the
  record at hand, so it is not modelled as state.
- The driver conductor's internals: it is an oracle whose answer depends only on the
  calls it has received through this adapter; changes to its state made by its other
  duties between calls are not modelled.
- The client proxy's transport: error responses are a trace; dropping a response when
  the transport back to the client is full is not modelled.
- The distinct error log's deduplication and its capacity: every recorded exception is
  appended.
- The error counter is unbounded; 64-bit wrap-around of the counter is not modelled.
- Java `Error`s (throwables that are not `Exception`s) are not caught by `onMessage` and
  are not modelled.
- Exception message text and the numeric values of the message-type ids are opaque; an
  unrecognised id is carried as an integer.
