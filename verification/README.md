# Dealer publisher proxy: routing cache, dispatch and wire envelope

This project models the client-side dispatch layer that the ZeroMQ driver of
oslo.messaging uses to send requests through a proxy
(`zmq_dealer_publisher_proxy.py`). It proves properties of that model in Dafny. The layer has four parts:

- **The routing table** (`Routing`). It is a per-target cache of host ids fetched from the matchmaker. It keeps two dictionaries keyed by the target's string form:
  - the fetched record, which is the hosts together with the time they were fetched;
  - the round-robin queue currently being handed out.

  Every lookup first runs the freshness step:
  - a missing record is fetched and its queue is built;
  - a stale record is fetched again, and its queue is *not* touched.

  A round-robin read takes the head of the queue. It rebuilds the queue from the record current at that moment once the queue is empty. A fan-out read returns a copy of the queue.
  `Routing.RoutingTable` is a class whose methods update the two dictionaries in place. The functions `Update`, `AllHosts` and `NextHost` on `Cache` values specify those methods. The lemmas about runs of lookups (`Rotation`) are stated over these functions.
- **Dispatch** (`Dispatch`). `DealerPublisherProxy.SendRequest` works as follows:
  - it refuses calls;
  - with publish-subscribe, it sends one envelope, addressed to the next host of the rotation for direct types and to the target's subscription filter otherwise;
  - without publish-subscribe, it sends one envelope per host of the target's queue.

  `CallSenderProxy.DoSendRequest` always sends one envelope, to the next host of the rotation. A `Socket` records the multipart messages it sends. A frame sent with "more" is held back until a frame without it completes the message.
- **The request envelope** (`Wire.Envelope`) has six frames:
  1. the empty delimiter;
  2. the type tag as decimal text;
  3. the routing key;
  4. the message id;
  5. the context;
  6. the message.
- **Reply decoding** (`Wire.ReceiveReply`). It reads the empty delimiter, the reply id, the type tag, the message id and the payload. Each structural check of the source becomes an explicit error value. On success it returns the payload and the frames it did not read.

The clock and the matchmaker's answer are inputs of every lookup (`Routing.Lookup`). The answer is used only when the lookup fetches. The message-type tags (`Names`) are abstract constants, so every property holds whatever their values are.

Behaviour of the code worth knowing when reading the model:

- `get_all_hosts` returns the round-robin *queue*, not the fetched record. When only fan-out reads are made, the queue is never rebuilt after the first fetch, so refreshed host lists never reach fan-out sends (`Routing.SnapshotFixedAtFirstFetch`).
- The code has no guard for an empty host list:
  - a fan-out to no hosts sends nothing;
  - a round-robin read of an empty queue fails, because `pop(0)` raises `IndexError`. The model represents that failure as `None`, or as `Dispatch.NoRoutableHost` at the send level. The freshness step's changes to the cache are kept.
- An empty queue is rebuilt only by a read that hands out a host, so once a target's queue is empty every later round-robin read fails, even after the matchmaker starts answering hosts (`Routing.EmptyQueueSticks`, `Routing.EmptyFirstFetchScenario`).
- Reply decoding returns only the payload. The message id is read and discarded.

## Model

| member | source | states |
|---|---|---|
| `Routing.IsExpired` | oslo_messaging/_drivers/zmq_driver/client/publishers/dealer/zmq_dealer_publisher_proxy.py:160-161 | a negative time-to-live never expires; 0 expires whenever the elapsed time is non-negative; otherwise it expires exactly when the elapsed time reaches the time-to-live |
| `Routing.ExpiryPersists` | oslo_messaging/_drivers/zmq_driver/client/publishers/dealer/zmq_dealer_publisher_proxy.py:160-161 | a stale record stays stale as the clock moves forward |
| `Routing.Update` | oslo_messaging/_drivers/zmq_driver/client/publishers/dealer/zmq_dealer_publisher_proxy.py:163-169 | a missing record is fetched and its queue built from the answer; an existing queue is never touched, a stale record is replaced by the answer stamped with the clock, a fresh one kept; other targets unchanged; keeps record and queue keys equal |
| `Routing.AllHosts` | oslo_messaging/_drivers/zmq_driver/client/publishers/dealer/zmq_dealer_publisher_proxy.py:148-150 | only the freshness step changes the cache; the answer is the target's existing queue, or the fetched hosts on the first lookup |
| `Routing.NextHost` | oslo_messaging/_drivers/zmq_driver/client/publishers/dealer/zmq_dealer_publisher_proxy.py:152-158 | records change only by the freshness step; other targets' queues unchanged; fails exactly when the queue is empty after that step; otherwise returns the head of the queue as it was before any refresh, leaves the tail, or a queue rebuilt from the current record once the head was the last host; on a target's first lookup returns the first discovered host and leaves the rest of the answer (or the whole answer when it has one host) queued |
| `Routing.Fetch` | oslo_messaging/_drivers/zmq_driver/client/publishers/dealer/zmq_dealer_publisher_proxy.py:171-173 | the target's record becomes the matchmaker's answer stamped with the clock; other records and all queues are unchanged |
| `Routing.Renew` | oslo_messaging/_drivers/zmq_driver/client/publishers/dealer/zmq_dealer_publisher_proxy.py:175-177 | the target's queue becomes its record's hosts; the records and the other queues are unchanged |
| `Routing.Rotation` | oslo_messaging/_drivers/zmq_driver/client/publishers/dealer/zmq_dealer_publisher_proxy.py:152-158 | a run of round-robin reads yields one answer per lookup and keeps the cache consistent |
| `Routing.DrainUndisturbed` | oslo_messaging/_drivers/zmq_driver/client/publishers/dealer/zmq_dealer_publisher_proxy.py:152-177 | whatever the clock and the matchmaker answer, the next reads return the current queue's hosts in order; the read that empties it rebuilds it from the record current at that read, so a new host list is seen only after the queue is used up |
| `Routing.RoundRobin` | oslo_messaging/_drivers/zmq_driver/client/publishers/dealer/zmq_dealer_publisher_proxy.py:152-177 | with a steady host list (or no expiry), read j returns host (i + j) mod N of the fetched list, i.e. the hosts cyclically in fetch order |
| `Routing.FirstReadsCycle` | oslo_messaging/_drivers/zmq_driver/client/publishers/dealer/zmq_dealer_publisher_proxy.py:152-177 | from a target not yet cached, with a steady non-empty host list, read j returns host j mod N of the first fetch |
| `Routing.EmptyQueueSticks` | oslo_messaging/_drivers/zmq_driver/client/publishers/dealer/zmq_dealer_publisher_proxy.py:152-158 | once a target's queue is empty, every later round-robin read fails and the queue stays empty, whatever the clock and the matchmaker answer |
| `Routing.EmptyFirstFetchScenario` | oslo_messaging/_drivers/zmq_driver/client/publishers/dealer/zmq_dealer_publisher_proxy.py:152-177 | time-to-live 0, no hosts fetched first and [A] answered next: both reads fail |
| `Routing.SteadyStep` | oslo_messaging/_drivers/zmq_driver/client/publishers/dealer/zmq_dealer_publisher_proxy.py:152-158 | one read of a steady rotation returns the host at the cursor and advances the cursor with wrap-around |
| `Routing.AllHostsIdempotent` | oslo_messaging/_drivers/zmq_driver/client/publishers/dealer/zmq_dealer_publisher_proxy.py:148-150 | without expiry a fan-out read leaves the cache as it was, so repeating it gives the same answer |
| `Routing.Snapshots` | oslo_messaging/_drivers/zmq_driver/client/publishers/dealer/zmq_dealer_publisher_proxy.py:148-150 | a run of fan-out reads yields one answer per lookup and keeps the cache consistent |
| `Routing.SnapshotsKeepQueue` | oslo_messaging/_drivers/zmq_driver/client/publishers/dealer/zmq_dealer_publisher_proxy.py:148-169 | fan-out reads of a cached target all answer its queue and never change the queues |
| `Routing.SnapshotFixedAtFirstFetch` | oslo_messaging/_drivers/zmq_driver/client/publishers/dealer/zmq_dealer_publisher_proxy.py:148-169 | every read of a run of fan-out reads answers the hosts of the first fetch, whatever later fetches return |
| `Routing.ThreeHostsScenario` | oslo_messaging/_drivers/zmq_driver/client/publishers/dealer/zmq_dealer_publisher_proxy.py:152-177 | hosts [A, B, C] give A, B, C, A on four reads from an empty cache |
| `Routing.RefreshWaitsForDrain` | oslo_messaging/_drivers/zmq_driver/client/publishers/dealer/zmq_dealer_publisher_proxy.py:152-177 | time-to-live 0, [A, B] fetched then [C] answered: the reads give A, B, C |
| `Routing.RoutingTable.constructor` | oslo_messaging/_drivers/zmq_driver/client/publishers/dealer/zmq_dealer_publisher_proxy.py:142-146 | both dictionaries start empty |
| `Routing.RoutingTable.GetAllHosts` | oslo_messaging/_drivers/zmq_driver/client/publishers/dealer/zmq_dealer_publisher_proxy.py:148-150 | the new dictionaries and the returned copy are those of `AllHosts` on the old ones |
| `Routing.RoutingTable.GetRoutableHost` | oslo_messaging/_drivers/zmq_driver/client/publishers/dealer/zmq_dealer_publisher_proxy.py:152-158 | the new dictionaries and the returned host are those of `NextHost` on the old ones |
| `Routing.RoutingTable.UpdateRoutingTable` | oslo_messaging/_drivers/zmq_driver/client/publishers/dealer/zmq_dealer_publisher_proxy.py:163-169 | the new dictionaries are `Update` of the old ones |
| `Routing.RoutingTable.FetchHosts` | oslo_messaging/_drivers/zmq_driver/client/publishers/dealer/zmq_dealer_publisher_proxy.py:171-173 | the target's record becomes the matchmaker's answer stamped with the clock; the queues are unchanged |
| `Routing.RoutingTable.RenewRoutableHosts` | oslo_messaging/_drivers/zmq_driver/client/publishers/dealer/zmq_dealer_publisher_proxy.py:175-177 | the target's queue becomes a copy of its record's hosts; the records are unchanged |
| `Wire.Digits` | oslo_messaging/_drivers/zmq_driver/client/publishers/dealer/zmq_dealer_publisher_proxy.py:64 | the decimal text of a natural number is a non-empty run of digits with no leading zero |
| `Wire.Decimal` | oslo_messaging/_drivers/zmq_driver/client/publishers/dealer/zmq_dealer_publisher_proxy.py:64 | the text is non-empty and starts with a minus sign exactly for negative tags |
| `Wire.ParseInt` | oslo_messaging/_drivers/zmq_driver/client/publishers/dealer/zmq_dealer_publisher_proxy.py:127 | parses exactly an optional minus sign followed by one or more digits; plain digits give a non-negative value; a negative value comes only from a leading minus sign |
| `Wire.DigitsRoundTrip` | oslo_messaging/_drivers/zmq_driver/client/publishers/dealer/zmq_dealer_publisher_proxy.py:127 | reading the digits of n back gives n |
| `Wire.DecimalRoundTrip` | oslo_messaging/_drivers/zmq_driver/client/publishers/dealer/zmq_dealer_publisher_proxy.py:127 | `int(str(n))` gives n for every integer type tag |
| `Wire.DecimalInjective` | oslo_messaging/_drivers/zmq_driver/client/publishers/dealer/zmq_dealer_publisher_proxy.py:64 | distinct tags have distinct decimal texts |
| `Wire.Envelope` | oslo_messaging/_drivers/zmq_driver/client/publishers/dealer/zmq_dealer_publisher_proxy.py:62-68 | six frames: empty, the decimal text of msg_type (which `int` reads back as msg_type), routing key, message id, context, message |
| `Wire.EnvelopeInjective` | oslo_messaging/_drivers/zmq_driver/client/publishers/dealer/zmq_dealer_publisher_proxy.py:62-68 | equal envelopes carry equal type, routing key, message id, context and message |
| `Wire.ReceiveReply` | oslo_messaging/_drivers/zmq_driver/client/publishers/dealer/zmq_dealer_publisher_proxy.py:122-132 | succeeds exactly when there are five frames, the first empty and the third reading as the reply tag, and then returns the fifth frame and the unread rest; a non-empty first frame, a missing reply id, a non-numeric or wrong tag each give their own error |
| `Wire.ReplyRoundTrip` | oslo_messaging/_drivers/zmq_driver/client/publishers/dealer/zmq_dealer_publisher_proxy.py:122-132 | a well-formed reply followed by any frames decodes to its payload and leaves those frames |
| `Wire.WrongTagRefused` | oslo_messaging/_drivers/zmq_driver/client/publishers/dealer/zmq_dealer_publisher_proxy.py:127-128 | a reply carrying any other type tag is refused |
| `Wire.IdsDiscarded` | oslo_messaging/_drivers/zmq_driver/client/publishers/dealer/zmq_dealer_publisher_proxy.py:125-130 | the reply id and the message id do not affect the decoded reply |
| `Dispatch.Socket.Send` | oslo_messaging/_drivers/zmq_driver/client/publishers/dealer/zmq_dealer_publisher_proxy.py:63-68 | a frame sent with "more" is held back; one sent without it completes a multipart message of the held frames and itself |
| `Dispatch.SendEnvelope` | oslo_messaging/_drivers/zmq_driver/client/publishers/dealer/zmq_dealer_publisher_proxy.py:63-68 | the six sends append exactly one message, the envelope, and hold nothing back |
| `Dispatch.FanOut` | oslo_messaging/_drivers/zmq_driver/client/publishers/dealer/zmq_dealer_publisher_proxy.py:59-60 | the fan-out has one message per key, the i-th being the envelope addressed to the i-th key |
| `Dispatch.FanOutCopies` | oslo_messaging/_drivers/zmq_driver/client/publishers/dealer/zmq_dealer_publisher_proxy.py:58-60 | fan-out messages are equal in every frame but the routing key, which is the key of their place |
| `Dispatch.DealerPublisherProxy.constructor` | oslo_messaging/_drivers/zmq_driver/client/publishers/dealer/zmq_dealer_publisher_proxy.py:38-45 | a fresh, empty routing table on the given socket |
| `Dispatch.DealerPublisherProxy.SendRequest` | oslo_messaging/_drivers/zmq_driver/client/publishers/dealer/zmq_dealer_publisher_proxy.py:47-60 | a call is refused with `UnsupportedSendPattern` and changes nothing; without publish-subscribe the fan-out over `AllHosts` is sent; with it one envelope to the `NextHost` host (direct types; an empty queue sends nothing and fails) or to the subscription filter (table untouched) |
| `Dispatch.DealerPublisherProxy.DoSendRequest` | oslo_messaging/_drivers/zmq_driver/client/publishers/dealer/zmq_dealer_publisher_proxy.py:62-68 | appends the envelope of the request for the routing key as one message |
| `Dispatch.CallSenderProxy.constructor` | oslo_messaging/_drivers/zmq_driver/client/publishers/dealer/zmq_dealer_publisher_proxy.py:92-99 | a fresh, empty routing table |
| `Dispatch.CallSenderProxy.DoSendRequest` | oslo_messaging/_drivers/zmq_driver/client/publishers/dealer/zmq_dealer_publisher_proxy.py:104-113 | the table follows `NextHost`; the same six-frame envelope goes to the host it returns, or nothing is sent when the queue is empty |
| `Dispatch.FanOutScenario` | oslo_messaging/_drivers/zmq_driver/client/publishers/dealer/zmq_dealer_publisher_proxy.py:57-60 | without publish-subscribe a cast to a target resolving to [A, B] sends exactly the envelopes for A and for B |
| `Dispatch.CallRefusedScenario` | oslo_messaging/_drivers/zmq_driver/client/publishers/dealer/zmq_dealer_publisher_proxy.py:47-50 | a call offered to the publisher fails with `UnsupportedSendPattern` and no message is sent, in either mode |

## Left out

- Socket I/O beyond the frames sent: the flags other than "more", `connections`, and `close` (`cleanup`). Sending is modelled as appending to the socket's message list. Reading a reply is modelled as consuming from a given frame list.
- Pickle serialisation: the context, the message and the reply payload are carried as their serialised bytes. `recv_pyobj` hands back the fifth frame as it is.
- `six.b` encoding of host ids, message ids and the subscription filter: these values are already bytes in the model.
- `time.time()` is a float. The model uses an integer clock reading, one per lookup, so the two clock reads of one lookup (expiry test and fetch stamp) are taken as the same instant.
- The matchmaker is not part of this model. Its answer for the target at each lookup is an input (`Lookup.discovered`). The socket-type argument of `get_hosts` is dropped.
- The values of the message-type constants, and `target_to_subscribe_filter`: that module is not part of this model. The constants are abstract. The filter is a function given to the publisher.
- `str(target)` keying: targets are their string keys.
- `PublisherConnectionUpdater._update_connection`, a periodic loop of transport connects driven by a timer.
- The wiring in `DealerCallPublisherProxy.__init__` and `CallSenderProxy.__init__` beyond creating the routing table: the sockets manager, the poller registration and the connection updater.
- Logging.
- Concurrency: the model is sequential, one lookup or send at a time.
- `Wire.ParseInt` does not accept what Python's `int` accepts besides an optional minus sign and decimal digits (surrounding whitespace, a leading plus sign, underscores between digits). Such type frames are refused as `NotAnInteger`.
- `Wire.ReceiveReply` treats a frame that is not there as an error (`Truncated`, or `ReplyIdExpected` for the reply id), whereas a real `recv` waits for it. The `is not None` check on the reply id cannot fail on a real socket.
