/**
 * The peer-to-peer node of node.py: its connection registry and its
 * Ricart-Agrawala election state machine, as a class whose methods update
 * the node's fields in place.  Sockets become values: a handle is a `Peer`,
 * a handshake is the id the peer answers with, and every `n.send(data)` is
 * appended to `outbox`.
 */
module P2P {
  import opened Wrappers
  import opened Protocol
  import Ids

  /** A `reconnect_to_nodes` entry `{"host": h, "port": p, "tries": n}`. */
  datatype Reconnect = Reconnect(host: string, port: int, tries: int)

  /** The outcome of dialling a peer and exchanging ids: a failure, or the id the peer sent back. */
  datatype Handshake = DialFailed | PeerId(id: string)

  /** Some handle of `peers` has this host and port. */
  predicate HasAddress(peers: seq<Peer>, host: string, port: int) {
    exists k :: 0 <= k < |peers| && peers[k].host == host && peers[k].port == port
  }

  /** Some handle of `peers` has this host and id. */
  predicate HasHostAndId(peers: seq<Peer>, host: string, id: string) {
    exists k :: 0 <= k < |peers| && peers[k].host == host && peers[k].id == id
  }

  /** The scan of `nodes_outbound` for a handle to `host:port` (node.py:141-144). */
  method FindAddress(peers: seq<Peer>, host: string, port: int) returns (found: bool)
    ensures found <==> HasAddress(peers, host, port)
  {
    for i := 0 to |peers|
      invariant !HasAddress(peers[..i], host, port)
    {
      if peers[i].host == host && peers[i].port == port {
        return true;
      }
      assert peers[..i + 1] == peers[..i] + [peers[i]];
    }
    assert peers[..|peers|] == peers;
    return false;
  }

  /** The scan of `nodes_inbound` for a handle from `host` with id `id` (node.py:164-169). */
  method FindHostAndId(peers: seq<Peer>, host: string, id: string) returns (found: bool)
    ensures found <==> HasHostAndId(peers, host, id)
  {
    for i := 0 to |peers|
      invariant !HasHostAndId(peers[..i], host, id)
    {
      if peers[i].host == host && peers[i].id == id {
        return true;
      }
      assert peers[..i + 1] == peers[..i] + [peers[i]];
    }
    assert peers[..|peers|] == peers;
    return false;
  }

  class Node {
    const host: string
    const port: int
    const id: string
    const nodesInNetwork: int

    var state: State
    var timestamp: int
    var requestTimestamp: Option<int>
    var electionApprovals: nat
    var requestQue: seq<Deferred>
    var nodesInbound: seq<Peer>
    var nodesOutbound: seq<Peer>
    var reconnectToNodes: seq<Reconnect>
    /** Handles told to stop (`node.stop()`); the session later reports back through NodeDisconnected. */
    var stopping: seq<Peer>
    /** Every structured message sent, in order. */
    var outbox: seq<Send>

    /**
     * A WANTED node has a request timestamp, and `request_que` holds only
     * GIVE requests.
     */
    ghost predicate Valid()
      reads this
    {
      && (state == Wanted ==> requestTimestamp.Some?)
      && (forall k :: 0 <= k < |requestQue| ==> requestQue[k].msg.kind == Give)
    }

    /**
     * The clock is past everything the node has stamped and sent, past its
     * request timestamp, and at least every deferred timestamp it merged.
     */
    ghost predicate ClockDominates()
      reads this
    {
      && (requestTimestamp.Some? ==> requestTimestamp.value < timestamp)
      && (forall k :: 0 <= k < |requestQue| ==> requestQue[k].msg.timestamp <= timestamp)
      && StampedBelow(outbox, timestamp)
    }

    /** `Node.__init__` without the server socket (node.py:31-77). */
    constructor (host: string, port: int, id: string, n: int)
      ensures this.host == host && this.port == port && this.id == id && nodesInNetwork == n
      ensures state == DoNotWant && timestamp == 0 && requestTimestamp == None && electionApprovals == 0
      ensures requestQue == [] && nodesInbound == [] && nodesOutbound == [] && reconnectToNodes == []
      ensures stopping == [] && outbox == []
      ensures Valid() && ClockDominates()
    {
      this.host := host;
      this.port := port;
      this.id := id;
      nodesInNetwork := n;
      state := DoNotWant;
      timestamp := 0;
      requestTimestamp := None;
      electionApprovals := 0;
      requestQue := [];
      nodesInbound := [];
      nodesOutbound := [];
      reconnectToNodes := [];
      stopping := [];
      outbox := [];
    }

    /** `all_nodes`: every handle, the inbound ones first. */
    function AllNodes(): (r: seq<Peer>)
      reads this
      ensures |r| == |nodesInbound| + |nodesOutbound|
      ensures forall p :: p in r <==> p in nodesInbound || p in nodesOutbound
    {
      nodesInbound + nodesOutbound
    }

    /** `send_to_node`: the clock ticks whether or not `n` is a live handle; only a live one is sent to. */
    method SendToNode(n: Peer, data: Message)
      modifies this`timestamp, this`outbox
      ensures timestamp == old(timestamp) + 1
      ensures outbox == old(outbox) + SendTo(AllNodes(), n, data)
    {
      timestamp := timestamp + 1;
      if n in nodesInbound || n in nodesOutbound {
        outbox := outbox + [Send(n, data)];
      }
    }

    /**
     * `send_to_nodes`: one tick for the broadcast, then `data` to every
     * non-excluded handle, inbound first, each send ticking once more.
     */
    method SendToNodes(data: Message, exclude: seq<Peer>)
      modifies this`timestamp, this`outbox
      ensures outbox == old(outbox) + Deliveries(AllNodes(), exclude, data)
      ensures timestamp == old(timestamp) + 1 + |Deliveries(AllNodes(), exclude, data)|
      ensures old(ClockDominates()) && data.timestamp <= old(timestamp) ==> ClockDominates()
    {
      timestamp := timestamp + 1;
      SendToEach(nodesInbound, data, exclude);
      SendToEach(nodesOutbound, data, exclude);
      ghost var sent := Deliveries(AllNodes(), exclude, data);
      assert outbox == old(outbox) + sent && timestamp >= old(timestamp) + 1 by {
        DeliveriesAppend(nodesInbound, nodesOutbound, exclude, data);
      }
      if old(ClockDominates()) && data.timestamp <= old(timestamp) {
        DeliveriesStampedBelow(AllNodes(), exclude, data, old(timestamp) + 1);
        StampedBelowAppend(old(outbox), sent, old(timestamp) + 1, timestamp);
      }
    }

    /** One of the two loops of `send_to_nodes`, over a list of live handles (node.py:108-118). */
    method SendToEach(peers: seq<Peer>, data: Message, exclude: seq<Peer>)
      requires forall k :: 0 <= k < |peers| ==> peers[k] in AllNodes()
      modifies this`timestamp, this`outbox
      ensures outbox == old(outbox) + Deliveries(peers, exclude, data)
      ensures timestamp == old(timestamp) + |Deliveries(peers, exclude, data)|
    {
      for i := 0 to |peers|
        invariant outbox == old(outbox) + Deliveries(peers[..i], exclude, data)
        invariant timestamp == old(timestamp) + |Deliveries(peers[..i], exclude, data)|
      {
        var n := peers[i];
        assert peers[..i + 1] == peers[..i] + [n];
        DeliveriesSnoc(peers[..i], n, exclude, data);
        if n !in exclude {
          SendToNode(n, data);
        }
      }
      assert peers[..|peers|] == peers;
    }

    /** `send_ok_response`: OK stamped with the current clock, sent through `send_to_node`. */
    method SendOkResponse(n: Peer)
      modifies this`timestamp, this`outbox
      ensures timestamp == old(timestamp) + 1
      ensures outbox == old(outbox) + SendTo(AllNodes(), n, Message(old(timestamp), Ok))
      ensures old(StampedBelow(outbox, timestamp)) ==> StampedBelow(outbox, timestamp)
    {
      SendToNode(n, Message(timestamp, Ok));
    }

    /**
     * `node_message`, taken as atomic: merge the clock, then answer, defer or
     * count as `React` decides.  `completed` is false where Python raises
     * while ranking the ids of a tie; the merged clock is kept then.
     */
    method NodeMessage(node: Peer, data: Message) returns (completed: bool)
      requires Valid()
      modifies this`timestamp, this`outbox, this`requestQue, this`electionApprovals
      ensures Valid()
      ensures var merged := Max(old(timestamp), data.timestamp);
              var r := React(state, requestTimestamp, id, node, data);
              && completed == (r != RankError)
              && timestamp == merged + (if r == Reply then 1 else 0)
              && outbox == old(outbox) + (if r == Reply then SendTo(AllNodes(), node, Message(merged, Ok)) else [])
              && requestQue == old(requestQue) + (if r == Defer then [Deferred(node, data)] else [])
              && electionApprovals == old(electionApprovals) + (if r == Count then 1 else 0)
      ensures old(timestamp) <= timestamp
      ensures old(ClockDominates()) ==> ClockDominates()
    {
      timestamp := Max(timestamp, data.timestamp);
      completed := true;
      if data.kind.Give? {
        if state == DoNotWant {
          SendOkResponse(node);
        } else if state == Held {
          requestQue := requestQue + [Deferred(node, data)];
        } else {
          if data.timestamp == requestTimestamp.value {
            // The tie-break ranks both ids; `int` raises on an id that is not a prefix and a numeral.
            var mine := Ids.IdAsInt(id);
            var theirs := Ids.IdAsInt(node.id);
            if mine.None? || theirs.None? {
              return false;
            }
            if mine.value > theirs.value {
              requestQue := requestQue + [Deferred(node, data)];
            } else {
              SendOkResponse(node);
            }
          } else if data.timestamp < requestTimestamp.value {
            SendOkResponse(node);
          } else {
            requestQue := requestQue + [Deferred(node, data)];
          }
        }
      } else if data.kind.Ok? {
        electionApprovals := electionApprovals + 1;
      }
    }

    /**
     * One step of `election` (node.py:276-296); `due` says whether the
     * timer has expired.  DO-NOT-WANT broadcasts a GIVE stamped with the
     * clock and becomes WANTED; WANTED becomes HELD once every handle has
     * approved; HELD becomes DO-NOT-WANT and replays `request_que`, which it
     * leaves as it is.
     */
    method Election(due: bool)
      requires Valid()
      modifies this`state, this`timestamp, this`requestTimestamp, this`electionApprovals, this`requestQue, this`outbox
      ensures Valid()
      ensures !due ==> unchanged(this)
      ensures due && old(state) == DoNotWant ==>
        && state == Wanted && requestTimestamp == Some(old(timestamp))
        && outbox == old(outbox) + Deliveries(AllNodes(), [], Message(old(timestamp), Give))
        && timestamp == old(timestamp) + 1 + |AllNodes()|
        && electionApprovals == old(electionApprovals) && requestQue == old(requestQue)
      ensures due && old(state) == Wanted ==>
        && (if old(electionApprovals) == |AllNodes()|
            then state == Held && electionApprovals == 0
            else state == Wanted && electionApprovals == old(electionApprovals))
        && timestamp == old(timestamp) && outbox == old(outbox)
        && requestTimestamp == old(requestTimestamp) && requestQue == old(requestQue)
      ensures due && old(state) == Held ==>
        && state == DoNotWant && requestQue == old(requestQue)
        && timestamp == ReplayClock(old(timestamp), old(requestQue))
        && outbox == old(outbox) + ReplaySends(old(timestamp), old(requestQue), AllNodes())
        && electionApprovals == old(electionApprovals) && requestTimestamp == old(requestTimestamp)
      ensures old(timestamp) <= timestamp
      ensures old(ClockDominates()) ==> ClockDominates()
    {
      if !due {
        return;
      }
      if state == DoNotWant {
        state := Wanted;
        requestTimestamp := Some(timestamp);
        SendToNodes(Message(requestTimestamp.value, Give), []);
        DeliveriesToAll(AllNodes(), Message(old(timestamp), Give));
      } else if state == Wanted {
        if |AllNodes()| == electionApprovals {
          electionApprovals := 0;
          state := Held;
        }
      } else {
        state := DoNotWant;
        ReplayRequestQue();
      }
    }

    /**
     * The loop that ends HELD (node.py:291-292): with the state already
     * DO-NOT-WANT, every recorded request goes back through NodeMessage in
     * the order recorded, and is answered.
     */
    method ReplayRequestQue()
      requires Valid() && state == DoNotWant
      modifies this`timestamp, this`electionApprovals, this`requestQue, this`outbox
      ensures Valid() && requestQue == old(requestQue) && electionApprovals == old(electionApprovals)
      ensures timestamp == ReplayClock(old(timestamp), old(requestQue))
      ensures outbox == old(outbox) + ReplaySends(old(timestamp), old(requestQue), AllNodes())
      ensures old(timestamp) <= timestamp
      ensures old(ClockDominates()) ==> ClockDominates()
    {
      for i := 0 to |requestQue|
        invariant Valid()
        invariant requestQue == old(requestQue) && electionApprovals == old(electionApprovals)
        invariant timestamp == ReplayClock(old(timestamp), requestQue[..i])
        invariant outbox == old(outbox) + ReplaySends(old(timestamp), requestQue[..i], AllNodes())
        invariant old(timestamp) <= timestamp
        invariant old(ClockDominates()) ==> ClockDominates()
      {
        assert requestQue[..i + 1][..i] == requestQue[..i];
        var entry := requestQue[i];
        var _ := NodeMessage(entry.peer, entry.msg);
      }
      assert requestQue[..|requestQue|] == requestQue;
    }

    /**
     * The election part of one `run` iteration (node.py:268-269): the state
     * machine is driven only once every other node of the network is connected.
     */
    method Tick(due: bool)
      requires Valid()
      modifies this`state, this`timestamp, this`requestTimestamp, this`electionApprovals, this`requestQue, this`outbox
      ensures Valid()
      ensures |AllNodes()| != nodesInNetwork - 1 ==> unchanged(this)
      ensures old(timestamp) <= timestamp
      ensures old(ClockDominates()) ==> ClockDominates()
    {
      if |AllNodes()| == nodesInNetwork - 1 {
        Election(due);
      }
    }

    /**
     * `connect_with_node` with the dial and id exchange given as `handshake`
     * (node.py:128-188).  Refuses the node's own address; an existing
     * outbound handle to the address, or a handshake answered with the
     * node's own id or with the id of an inbound handle from that host,
     * counts as connected without a new handle.
     */
    method ConnectWithNode(host: string, port: int, reconnect: bool, handshake: Handshake) returns (connected: bool)
      modifies this`nodesOutbound, this`reconnectToNodes
      ensures host == this.host && port == this.port ==>
        !connected && unchanged(this)
      ensures !(host == this.host && port == this.port) && HasAddress(old(nodesOutbound), host, port) ==>
        connected && unchanged(this)
      ensures !(host == this.host && port == this.port) && !HasAddress(old(nodesOutbound), host, port) ==>
        && (handshake.DialFailed? ==> !connected && unchanged(this))
        && (handshake.PeerId? && (handshake.id == id || HasHostAndId(nodesInbound, host, handshake.id)) ==>
              connected && unchanged(this))
        && (handshake.PeerId? && !(handshake.id == id || HasHostAndId(nodesInbound, host, handshake.id)) ==>
              && connected
              && nodesOutbound == old(nodesOutbound) + [Peer(host, port, handshake.id)]
              && reconnectToNodes == old(reconnectToNodes) + (if reconnect then [Reconnect(host, port, 0)] else []))
    {
      if host == this.host && port == this.port {
        return false;
      }
      var already := FindAddress(nodesOutbound, host, port);
      if already {
        return true;
      }
      if handshake.DialFailed? {
        return false;
      }
      var peerId := handshake.id;
      if id == peerId {
        return true;
      }
      var inbound := FindHostAndId(nodesInbound, host, peerId);
      if inbound {
        return true;
      }
      nodesOutbound := nodesOutbound + [Peer(host, port, peerId)];
      if reconnect {
        reconnectToNodes := reconnectToNodes + [Reconnect(host, port, 0)];
      }
      return true;
    }

    /**
     * The registration half of one accepted connection in `run`
     * (node.py:252-260): the peer's id and address become an inbound handle.
     */
    method AcceptInbound(peerId: string, clientHost: string, clientPort: int)
      modifies this`nodesInbound
      ensures nodesInbound == old(nodesInbound) + [Peer(clientHost, clientPort, peerId)]
    {
      nodesInbound := nodesInbound + [Peer(clientHost, clientPort, peerId)];
    }

    /** `node_disconnected`: drop the handle from each list that holds it. */
    method NodeDisconnected(node: Peer)
      modifies this`nodesInbound, this`nodesOutbound
      ensures nodesInbound == RemoveFirst(old(nodesInbound), node)
      ensures nodesOutbound == RemoveFirst(old(nodesOutbound), node)
    {
      if node in nodesInbound {
        nodesInbound := RemoveFirst(nodesInbound, node);
      }
      if node in nodesOutbound {
        nodesOutbound := RemoveFirst(nodesOutbound, node);
      }
    }

    /** `disconnect_with_node`: only an outbound handle is told to stop; its lists change when it reports back. */
    method DisconnectWithNode(node: Peer)
      modifies this`stopping
      ensures stopping == old(stopping) + (if node in nodesOutbound then [node] else [])
    {
      if node in nodesOutbound {
        stopping := stopping + [node];
      }
    }
  }

  /**
   * Two WANTED nodes that asked at the same timestamp and whose ids have
   * distinct ranks receive each other's GIVE (node.py:355-360): exactly one
   * of them defers the other's request, the one of higher rank, while the
   * other answers OK; both stay WANTED and neither counts an approval.
   */
  method TieBreakExchange(a: Node, b: Node, fromA: Peer, fromB: Peer)
    requires a != b && a.Valid() && b.Valid()
    requires a.state == Wanted && b.state == Wanted && a.requestTimestamp == b.requestTimestamp
    requires fromA.id == a.id && fromB.id == b.id
    requires Ids.IdAsInt(a.id).Some? && Ids.IdAsInt(b.id).Some? && Ids.IdAsInt(a.id) != Ids.IdAsInt(b.id)
    modifies a`timestamp, a`outbox, a`requestQue, a`electionApprovals
    modifies b`timestamp, b`outbox, b`requestQue, b`electionApprovals
    ensures a.Valid() && b.Valid()
    ensures a.state == Wanted && b.state == Wanted
    ensures a.electionApprovals == old(a.electionApprovals) && b.electionApprovals == old(b.electionApprovals)
    ensures var t := old(a.requestTimestamp).value;
            var mergedA := Max(old(a.timestamp), t);
            var mergedB := Max(old(b.timestamp), t);
            if Ids.IdAsInt(a.id).value > Ids.IdAsInt(b.id).value then
              && a.outbox == old(a.outbox) && a.timestamp == mergedA
              && b.outbox == old(b.outbox) + SendTo(b.AllNodes(), fromA, Message(mergedB, Ok))
              && b.timestamp == mergedB + 1
            else
              && b.outbox == old(b.outbox) && b.timestamp == mergedB
              && a.outbox == old(a.outbox) + SendTo(a.AllNodes(), fromB, Message(mergedA, Ok))
              && a.timestamp == mergedA + 1
    ensures var aDefers := a.requestQue == old(a.requestQue) + [Deferred(fromB, Message(old(a.requestTimestamp).value, Give))];
            var bDefers := b.requestQue == old(b.requestQue) + [Deferred(fromA, Message(old(a.requestTimestamp).value, Give))];
            && (aDefers <==> Ids.IdAsInt(a.id).value > Ids.IdAsInt(b.id).value)
            && (bDefers <==> Ids.IdAsInt(b.id).value > Ids.IdAsInt(a.id).value)
            && (aDefers != bDefers)
            && (aDefers ==> b.requestQue == old(b.requestQue))
            && (bDefers ==> a.requestQue == old(a.requestQue))
  {
    var t := a.requestTimestamp.value;
    var doneA := a.NodeMessage(fromB, Message(t, Give));
    var doneB := b.NodeMessage(fromA, Message(t, Give));
  }
}
