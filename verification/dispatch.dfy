/**
 * Sending requests through the proxy: the publisher that addresses casts and
 * notifications, and the sender used for calls. Both put the same six-frame
 * envelope on a DEALER socket connected to the proxy.
 */
module Dispatch {
  import opened Outcomes
  import opened Wire
  import Names
  import opened Routing

  /** Why a request was not sent. */
  datatype SendError =
    | UnsupportedSendPattern(msgType: int)  // a call offered to the publisher
    | NoRoutableHost(target: Target)        // the target's round-robin queue is empty

  /**
   * The sending side of a socket. A frame sent with "more" waits in `pending`;
   * the next frame sent without it completes one multipart message.
   */
  class Socket {
    var messages: seq<seq<Bytes>>
    var pending: seq<Bytes>

    constructor ()
      ensures messages == [] && pending == []
    {
      messages := [];
      pending := [];
    }

    method Send(frame: Bytes, more: bool)
      modifies this
      ensures more ==> messages == old(messages) && pending == old(pending) + [frame]
      ensures !more ==> messages == old(messages) + [old(pending) + [frame]] && pending == []
    {
      if more {
        pending := pending + [frame];
      } else {
        messages := messages + [pending + [frame]];
        pending := [];
      }
    }
  }

  /** Sends the envelope of `req` addressed by `routingKey` as one multipart message. */
  method SendEnvelope(socket: Socket, req: Request, routingKey: Bytes)
    requires socket.pending == []
    modifies socket
    ensures socket.pending == [] && socket.messages == old(socket.messages) + [Envelope(req, routingKey)]
  {
    socket.Send([], true);
    socket.Send(Decimal(req.msgType), true);
    socket.Send(routingKey, true);
    socket.Send(req.messageId, true);
    socket.Send(req.context, true);
    assert socket.pending + [req.message] == Envelope(req, routingKey);
    socket.Send(req.message, false);
  }

  /** The messages of a fan-out: the envelope of `req` once per routing key, in key order. */
  function FanOut(req: Request, keys: seq<Bytes>): (messages: seq<seq<Bytes>>)
    ensures |messages| == |keys|
    ensures forall i :: 0 <= i < |keys| ==> messages[i] == Envelope(req, keys[i])
    decreases |keys|
  {
    if keys == [] then [] else FanOut(req, keys[..|keys| - 1]) + [Envelope(req, keys[|keys| - 1])]
  }

  /** The fan-out copies differ only in their routing-key frame, which is the key of their place. */
  lemma FanOutCopies(req: Request, keys: seq<Bytes>, i: nat, j: nat)
    requires i < |keys| && j < |keys|
    ensures |FanOut(req, keys)| == |keys|
    ensures |FanOut(req, keys)[i]| == |FanOut(req, keys)[j]| == 6
    ensures FanOut(req, keys)[i][2] == keys[i]
    ensures forall f :: 0 <= f < 6 && f != 2 ==> FanOut(req, keys)[i][f] == FanOut(req, keys)[j][f]
  {
  }

  /** The publisher used when requests go through a proxy. */
  class DealerPublisherProxy {
    const usePubSub: bool
    const socket: Socket
    const routingTable: RoutingTable
    /** The subscription filter the proxy publishes a target under. */
    const subscribeFilter: Target -> Bytes

    ghost predicate Valid()
      reads this, socket, routingTable
    {
      routingTable.Valid() && socket.pending == []
    }

    constructor (usePubSub: bool, ttl: int, subscribeFilter: Target -> Bytes, socket: Socket)
      requires socket.pending == []
      ensures Valid() && fresh(routingTable)
      ensures routingTable.ttl == ttl && routingTable.State() == EmptyCache
      ensures this.usePubSub == usePubSub && this.subscribeFilter == subscribeFilter && this.socket == socket
    {
      this.usePubSub := usePubSub;
      this.socket := socket;
      this.subscribeFilter := subscribeFilter;
      this.routingTable := new RoutingTable(ttl);
    }

    /**
     * Calls are refused. With publish-subscribe, one envelope is sent, addressed to
     * the next host of the rotation for direct types and to the target's
     * subscription filter otherwise. Without it, one envelope is sent to each host
     * of the target's queue.
     */
    method SendRequest(req: Request, l: Lookup) returns (outcome: Outcome<SendError>)
      requires Valid()
      modifies socket, routingTable
      ensures Valid()
      ensures req.msgType == Names.CALL_TYPE ==>
        && outcome == Fail(UnsupportedSendPattern(req.msgType))
        && socket.messages == old(socket.messages)
        && routingTable.State() == old(routingTable.State())
      ensures req.msgType != Names.CALL_TYPE && !usePubSub ==>
        var (cache, hosts) := AllHosts(old(routingTable.State()), routingTable.ttl, req.target, l);
        && outcome == Pass
        && routingTable.State() == cache
        && socket.messages == old(socket.messages) + FanOut(req, hosts)
      ensures req.msgType != Names.CALL_TYPE && usePubSub && req.msgType in Names.DIRECT_TYPES ==>
        var (cache, host) := NextHost(old(routingTable.State()), routingTable.ttl, req.target, l);
        && routingTable.State() == cache
        && (host.None? ==> outcome == Fail(NoRoutableHost(req.target)) && socket.messages == old(socket.messages))
        && (host.Some? ==> outcome == Pass && socket.messages == old(socket.messages) + [Envelope(req, host.value)])
      ensures req.msgType != Names.CALL_TYPE && usePubSub && req.msgType !in Names.DIRECT_TYPES ==>
        && outcome == Pass
        && routingTable.State() == old(routingTable.State())
        && socket.messages == old(socket.messages) + [Envelope(req, subscribeFilter(req.target))]
    {
      if req.msgType == Names.CALL_TYPE {
        return Fail(UnsupportedSendPattern(req.msgType));
      }
      if usePubSub {
        var routingKey: Bytes;
        if req.msgType in Names.DIRECT_TYPES {
          var host := routingTable.GetRoutableHost(req.target, l);
          if host.None? {
            return Fail(NoRoutableHost(req.target));
          }
          routingKey := host.value;
        } else {
          routingKey := subscribeFilter(req.target);
        }
        DoSendRequest(req, routingKey);
      } else {
        var routingKeys := routingTable.GetAllHosts(req.target, l);
        ghost var before := socket.messages;
        for i := 0 to |routingKeys|
          modifies socket
          invariant socket.pending == []
          invariant socket.messages == before + FanOut(req, routingKeys[..i])
        {
          DoSendRequest(req, routingKeys[i]);
          assert routingKeys[..i + 1][..i] == routingKeys[..i];
        }
        assert routingKeys[..|routingKeys|] == routingKeys;
      }
      outcome := Pass;
    }

    method DoSendRequest(req: Request, routingKey: Bytes)
      requires socket.pending == []
      modifies socket
      ensures socket.pending == [] && socket.messages == old(socket.messages) + [Envelope(req, routingKey)]
    {
      SendEnvelope(socket, req, routingKey);
    }
  }

  /** The sender of calls through the proxy: always one envelope, to the next host of the rotation. */
  class CallSenderProxy {
    const routingTable: RoutingTable

    constructor (ttl: int)
      ensures fresh(routingTable) && routingTable.Valid()
      ensures routingTable.ttl == ttl && routingTable.State() == EmptyCache
    {
      routingTable := new RoutingTable(ttl);
    }

    method DoSendRequest(socket: Socket, req: Request, l: Lookup) returns (outcome: Outcome<SendError>)
      requires routingTable.Valid() && socket.pending == []
      modifies socket, routingTable
      ensures routingTable.Valid() && socket.pending == []
      ensures var (cache, host) := NextHost(old(routingTable.State()), routingTable.ttl, req.target, l);
        && routingTable.State() == cache
        && (host.None? ==> outcome == Fail(NoRoutableHost(req.target)) && socket.messages == old(socket.messages))
        && (host.Some? ==> outcome == Pass && socket.messages == old(socket.messages) + [Envelope(req, host.value)])
    {
      var host := routingTable.GetRoutableHost(req.target, l);
      if host.None? {
        return Fail(NoRoutableHost(req.target));
      }
      SendEnvelope(socket, req, host.value);
      outcome := Pass;
    }
  }

  /**
   * Without publish-subscribe, a cast to a target that resolves to `[A, B]` on its
   * first lookup puts exactly two envelopes on the socket, one per host, equal
   * except for their routing keys.
   */
  method FanOutScenario(req: Request, ttl: int, filter: Target -> Bytes, now: int) returns (sent: seq<seq<Bytes>>)
    requires req.msgType != Names.CALL_TYPE
    ensures sent == [Envelope(req, HostA), Envelope(req, HostB)]
  {
    var socket := new Socket();
    var publisher := new DealerPublisherProxy(false, ttl, filter, socket);
    var outcome := publisher.SendRequest(req, Lookup(now, [HostA, HostB]));
    sent := socket.messages;
  }

  /** A call offered to the publisher is refused and nothing is put on the socket. */
  method CallRefusedScenario(req: Request, usePubSub: bool, ttl: int, filter: Target -> Bytes, l: Lookup)
    returns (outcome: Outcome<SendError>, sent: seq<seq<Bytes>>)
    requires req.msgType == Names.CALL_TYPE
    ensures outcome == Fail(UnsupportedSendPattern(req.msgType)) && sent == []
  {
    var socket := new Socket();
    var publisher := new DealerPublisherProxy(usePubSub, ttl, filter, socket);
    outcome := publisher.SendRequest(req, l);
    sent := socket.messages;
  }
}
