/**
 * The values the mutual-exclusion protocol of node.py works on, and the
 * reference definitions the Node class is proved against: how a message is
 * answered, what a broadcast delivers, what leaving HELD replays.
 */
module Protocol {
  import opened Wrappers
  import Ids

  /** A peer handle: the host, port and id a connection was registered with. */
  datatype Peer = Peer(host: string, port: int, id: string)

  /**
   * The `"message"` field of a structured message.  `Other` stands for any
   * text but "GIVE" and "OK"; `ParseKind` is the only way a text becomes a
   * `Kind`, and it never builds `Other("GIVE")` or `Other("OK")`.
   */
  datatype Kind = Give | Ok | Other(text: string)

  /** The comparisons `data["message"] == "GIVE"` and `== "OK"` of `node_message`. */
  function ParseKind(text: string): (k: Kind)
    ensures k == Give <==> text == "GIVE"
    ensures k == Ok <==> text == "OK"
    ensures k.Other? ==> k.text == text && text != "GIVE" && text != "OK"
  {
    if text == "GIVE" then Give else if text == "OK" then Ok else Other(text)
  }

  /** A structured message `{"timestamp": t, "message": k}`. */
  datatype Message = Message(timestamp: int, kind: Kind)

  /** The election state of a node. */
  datatype State = DoNotWant | Wanted | Held

  /** One `n.send(data)`: `msg` handed to the session of peer `to`. */
  datatype Send = Send(to: Peer, msg: Message)

  /** One entry `(node, data)` of `request_que`. */
  datatype Deferred = Deferred(peer: Peer, msg: Message)

  /** What `node_message` does with one message after merging the clock. */
  datatype Reaction =
    | Reply      // send OK to the sender
    | Defer      // append the request to `request_que`
    | Count      // count one more approval
    | Ignore     // a message kind the node does not act on
    | RankError  // `get_id_as_int` raised while breaking a tie

  function Max(a: int, b: int): (m: int)
    ensures m >= a && m >= b && (m == a || m == b)
  {
    if a >= b then a else b
  }

  /**
   * The decision table of `node_message` (node.py:349-368) for a node in
   * `state` whose id is `selfId`, when `msg` arrives from `from`.
   */
  function React(state: State, requestTimestamp: Option<int>, selfId: string, from: Peer, msg: Message): (r: Reaction)
    requires state == Wanted ==> requestTimestamp.Some?
    ensures r == Count <==> msg.kind.Ok?
    ensures r == Ignore <==> msg.kind.Other?
    ensures msg.kind.Give? && state == DoNotWant ==> r == Reply
    ensures msg.kind.Give? && state == Held ==> r == Defer
    ensures r == RankError <==>
      msg.kind.Give? && state == Wanted && msg.timestamp == requestTimestamp.value
      && (Ids.IdAsInt(selfId).None? || Ids.IdAsInt(from.id).None?)
  {
    match msg.kind
    case Ok => Count
    case Other(_) => Ignore
    case Give =>
      match state
      case DoNotWant => Reply
      case Held => Defer
      case Wanted =>
        if msg.timestamp == requestTimestamp.value then
          match (Ids.IdAsInt(selfId), Ids.IdAsInt(from.id))
          case (Some(mine), Some(theirs)) => if mine > theirs then Defer else Reply
          case _ => RankError
        else if msg.timestamp < requestTimestamp.value then Reply
        else Defer
  }

  /**
   * The priority order WANTED nodes resolve requests by: request (t1, r1), a
   * timestamp and a rank, goes before (t2, r2) when it is older, or as old
   * and of a rank at least as high.
   */
  predicate GoesFirst(t1: int, r1: int, t2: int, r2: int) {
    t1 < t2 || (t1 == t2 && r1 >= r2)
  }

  /**
   * An OK is counted whatever the state and whoever sent it: nothing ties
   * it to a request of the receiver's, so a stale OK counts as well.
   */
  lemma OkCountedInEveryState(state: State, rt: Option<int>, selfId: string, from: Peer, t: int)
    requires state == Wanted ==> rt.Some?
    ensures React(state, rt, selfId, from, Message(t, Ok)) == Count
  {
  }

  /** A WANTED node replies to a GIVE exactly when the sender's request goes first, and defers it otherwise. */
  lemma WantedRepliesIffSenderGoesFirst(rt: int, selfId: string, from: Peer, t: int, mine: int, theirs: int)
    requires Ids.IdAsInt(selfId) == Some(mine) && Ids.IdAsInt(from.id) == Some(theirs)
    ensures React(Wanted, Some(rt), selfId, from, Message(t, Give)) == Reply <==> GoesFirst(t, theirs, rt, mine)
    ensures React(Wanted, Some(rt), selfId, from, Message(t, Give)) == Defer <==> !GoesFirst(t, theirs, rt, mine)
  {
  }

  /** A WANTED node fails on a tie exactly when one of the two ids has no rank. */
  lemma WantedRankErrorIffUnrankedTie(rt: int, selfId: string, from: Peer, t: int)
    ensures React(Wanted, Some(rt), selfId, from, Message(t, Give)) == RankError
        <==> t == rt && (Ids.IdAsInt(selfId).None? || Ids.IdAsInt(from.id).None?)
  {
  }

  /**
   * Two WANTED nodes of distinct ranks that receive each other's GIVE, each
   * stamped with its sender's request timestamp, answer in opposite ways:
   * exactly one replies OK (no two nodes grant each other, no two nodes wait
   * for each other).
   */
  lemma ExactlyOneOfTwoWantedReplies(a: Peer, ta: int, ra: int, b: Peer, tb: int, rb: int)
    requires Ids.IdAsInt(a.id) == Some(ra) && Ids.IdAsInt(b.id) == Some(rb) && ra != rb
    ensures var aAnswers := React(Wanted, Some(ta), a.id, b, Message(tb, Give));
            var bAnswers := React(Wanted, Some(tb), b.id, a, Message(ta, Give));
            (aAnswers == Reply) != (bAnswers == Reply)
            && (aAnswers == Reply || aAnswers == Defer) && (bAnswers == Reply || bAnswers == Defer)
  {
  }

  /** On a timestamp tie the higher rank wins: the higher-ranked node defers, the lower-ranked one replies. */
  lemma HigherRankWinsTie(a: Peer, ra: int, b: Peer, rb: int, t: int)
    requires Ids.IdAsInt(a.id) == Some(ra) && Ids.IdAsInt(b.id) == Some(rb) && ra > rb
    ensures React(Wanted, Some(t), a.id, b, Message(t, Give)) == Defer
    ensures React(Wanted, Some(t), b.id, a, Message(t, Give)) == Reply
  {
  }

  /** With "P1" and "P2" tied, P1 answers P2's request and P2 defers P1's. */
  lemma TieBetweenP1AndP2(h: string, p1: int, p2: int, t: int)
    ensures React(Wanted, Some(t), "P1", Peer(h, p2, "P2"), Message(t, Give)) == Reply
    ensures React(Wanted, Some(t), "P2", Peer(h, p1, "P1"), Message(t, Give)) == Defer
  {
  }

  /** Ranks that tie (distinct ids, one rank) make two tied WANTED nodes both reply OK. */
  lemma EqualRanksBothReply(h: string, p: int, q: int, t: int)
    ensures React(Wanted, Some(t), "P01", Peer(h, q, "P1"), Message(t, Give)) == Reply
    ensures React(Wanted, Some(t), "P1", Peer(h, p, "P01"), Message(t, Give)) == Reply
  {
  }

  /** A node that does not want the critical section answers every GIVE, whatever its timestamp. */
  lemma DoNotWantAlwaysReplies(rt: Option<int>, selfId: string, from: Peer, t: int)
    ensures React(DoNotWant, rt, selfId, from, Message(t, Give)) == Reply
  {
  }

  /** `send_to_node`'s delivery: `m` reaches `p` exactly when `p` is a live handle. */
  function SendTo(live: seq<Peer>, p: Peer, m: Message): (r: seq<Send>)
    ensures r == [] || r == [Send(p, m)]
    ensures |r| == 1 <==> p in live
  {
    if p in live then [Send(p, m)] else []
  }

  /**
   * What `send_to_nodes(m, exclude)` hands out over a list of handles: `m`
   * to every handle of `peers` not in `exclude`, in list order.
   */
  function Deliveries(peers: seq<Peer>, exclude: seq<Peer>, m: Message): (r: seq<Send>)
    ensures |r| <= |peers|
  {
    if |peers| == 0 then []
    else
      var last := peers[|peers| - 1];
      Deliveries(peers[..|peers| - 1], exclude, m) + (if last in exclude then [] else [Send(last, m)])
  }

  /** A broadcast only carries `m`, and only to handles of `peers` that are not excluded. */
  lemma {:induction false} DeliveriesSound(peers: seq<Peer>, exclude: seq<Peer>, m: Message)
    ensures forall k :: 0 <= k < |Deliveries(peers, exclude, m)| ==>
      var d := Deliveries(peers, exclude, m)[k];
      d.msg == m && d.to in peers && d.to !in exclude
  {
    if |peers| > 0 {
      DeliveriesSound(peers[..|peers| - 1], exclude, m);
    }
  }

  /** Extending the list by one handle extends the deliveries by at most that handle's send. */
  lemma DeliveriesSnoc(peers: seq<Peer>, p: Peer, exclude: seq<Peer>, m: Message)
    ensures Deliveries(peers + [p], exclude, m)
         == Deliveries(peers, exclude, m) + (if p in exclude then [] else [Send(p, m)])
  {
  }

  /** Delivering over two lists one after the other is delivering over their concatenation. */
  lemma {:induction false} DeliveriesAppend(a: seq<Peer>, b: seq<Peer>, exclude: seq<Peer>, m: Message)
    ensures Deliveries(a + b, exclude, m) == Deliveries(a, exclude, m) + Deliveries(b, exclude, m)
  {
    if |b| == 0 {
      assert a + b == a;
    } else {
      assert (a + b)[..|a + b| - 1] == a + b[..|b| - 1];
      DeliveriesAppend(a, b[..|b| - 1], exclude, m);
    }
  }

  /**
   * Each handle not excluded gets `m` as many times as it occurs in `peers`
   * (so exactly once in a list without repeats); an excluded handle and any
   * other message never appear.
   */
  lemma {:induction false} DeliveriesMultiplicity(peers: seq<Peer>, exclude: seq<Peer>, m: Message, p: Peer, m': Message)
    ensures multiset(Deliveries(peers, exclude, m))[Send(p, m')]
         == if p in exclude || m' != m then 0 else multiset(peers)[p]
  {
    if |peers| > 0 {
      var init := peers[..|peers| - 1];
      var last := peers[|peers| - 1];
      assert peers == init + [last];
      assert Deliveries(peers, exclude, m) == Deliveries(init, exclude, m) + (if last in exclude then [] else [Send(last, m)]);
      DeliveriesMultiplicity(init, exclude, m, p, m');
    }
  }

  /** Without exclusions every handle gets `m`, one send per list position, in list order. */
  lemma {:induction false} DeliveriesToAll(peers: seq<Peer>, m: Message)
    ensures |Deliveries(peers, [], m)| == |peers|
    ensures forall k :: 0 <= k < |peers| ==> Deliveries(peers, [], m)[k] == Send(peers[k], m)
  {
    if |peers| > 0 {
      var init := peers[..|peers| - 1];
      DeliveriesToAll(init, m);
      var last := peers[|peers| - 1];
      assert last !in [];
      assert Deliveries(peers, [], m) == Deliveries(init, [], m) + [Send(last, m)];
      forall k | 0 <= k < |peers|
        ensures Deliveries(peers, [], m)[k] == Send(peers[k], m)
      {
        if k < |init| {
          assert peers[k] == init[k];
        }
      }
    }
  }

  /** Every message of `sends` is stamped below `clock`. */
  predicate StampedBelow(sends: seq<Send>, clock: int) {
    forall k :: 0 <= k < |sends| ==> sends[k].msg.timestamp < clock
  }

  /** Sends stamped below a clock stay below it after more sends stamped below it, and below any later clock. */
  lemma StampedBelowAppend(a: seq<Send>, b: seq<Send>, clock: int, later: int)
    requires StampedBelow(a, clock) && StampedBelow(b, clock) && clock <= later
    ensures StampedBelow(a + b, later)
  {
  }

  /** A broadcast of a message stamped below `clock` only holds sends stamped below it. */
  lemma DeliveriesStampedBelow(peers: seq<Peer>, exclude: seq<Peer>, m: Message, clock: int)
    requires m.timestamp < clock
    ensures StampedBelow(Deliveries(peers, exclude, m), clock)
  {
  }

  /**
   * The clock after replaying `queue` from `clock` in state DO-NOT-WANT:
   * each entry merges its timestamp and then pays one tick for its OK.
   */
  function ReplayClock(clock: int, queue: seq<Deferred>): (r: int)
    ensures r >= clock + |queue|
  {
    if |queue| == 0 then clock
    else
      var k := |queue| - 1;
      Max(ReplayClock(clock, queue[..k]), queue[k].msg.timestamp) + 1
  }

  /** The OK replies that replaying `queue` from `clock` sends, to the handles in `live`. */
  function ReplaySends(clock: int, queue: seq<Deferred>, live: seq<Peer>): (r: seq<Send>)
    ensures |r| <= |queue|
  {
    if |queue| == 0 then []
    else
      var k := |queue| - 1;
      var merged := Max(ReplayClock(clock, queue[..k]), queue[k].msg.timestamp);
      ReplaySends(clock, queue[..k], live) + SendTo(live, queue[k].peer, Message(merged, Ok))
  }

  /** Replaying advances the clock by at least one per entry and past every replayed timestamp. */
  lemma {:induction false} ReplayClockGrows(clock: int, queue: seq<Deferred>)
    ensures ReplayClock(clock, queue) >= clock + |queue|
    ensures forall k :: 0 <= k < |queue| ==> ReplayClock(clock, queue) > queue[k].msg.timestamp
  {
    if |queue| > 0 {
      ReplayClockGrows(clock, queue[..|queue| - 1]);
    }
  }

  /** Every replayed OK is stamped below the clock the replay ends with. */
  lemma {:induction false} ReplaySendsBelowClock(clock: int, queue: seq<Deferred>, live: seq<Peer>)
    ensures forall k :: 0 <= k < |ReplaySends(clock, queue, live)| ==>
      ReplaySends(clock, queue, live)[k].msg.timestamp < ReplayClock(clock, queue)
  {
    if |queue| > 0 {
      var init := queue[..|queue| - 1];
      ReplaySendsBelowClock(clock, init, live);
      ReplayClockGrows(clock, init);
    }
  }

  /**
   * When every deferred sender is still connected, the replay sends exactly
   * one OK per entry, to that entry's sender, in the order recorded.
   */
  lemma {:induction false} ReplayAnswersEachEntry(clock: int, queue: seq<Deferred>, live: seq<Peer>)
    requires forall k :: 0 <= k < |queue| ==> queue[k].peer in live
    ensures |ReplaySends(clock, queue, live)| == |queue|
    ensures forall k :: 0 <= k < |queue| ==>
      ReplaySends(clock, queue, live)[k].to == queue[k].peer && ReplaySends(clock, queue, live)[k].msg.kind == Ok
  {
    if |queue| > 0 {
      ReplayAnswersEachEntry(clock, queue[..|queue| - 1], live);
    }
  }

  /**
   * `request_que` is never emptied, so a second exit from HELD replays the
   * same entries again: the first recorded sender, if still connected, is
   * sent a second OK for one request.
   */
  lemma {:induction false} SecondReplayAnswersAgain(first: int, second: int, queue: seq<Deferred>, live: seq<Peer>)
    requires |queue| > 0 && forall k :: 0 <= k < |queue| ==> queue[k].peer in live
    ensures var both := ReplaySends(first, queue, live) + ReplaySends(second, queue, live);
            |both| == 2 * |queue|
            && both[0].to == both[|queue|].to == queue[0].peer
            && both[0].msg.kind == both[|queue|].msg.kind == Ok
  {
    ReplayAnswersEachEntry(first, queue, live);
    ReplayAnswersEachEntry(second, queue, live);
  }

  /** A replayed OK only ever goes to a sender recorded in the queue, and one that is live. */
  lemma {:induction false} ReplaySendsToQueuedPeers(clock: int, queue: seq<Deferred>, live: seq<Peer>)
    ensures forall k :: 0 <= k < |ReplaySends(clock, queue, live)| ==>
      ReplaySends(clock, queue, live)[k].msg.kind == Ok
      && ReplaySends(clock, queue, live)[k].to in live
      && exists j :: 0 <= j < |queue| && queue[j].peer == ReplaySends(clock, queue, live)[k].to
  {
    if |queue| > 0 {
      var init := queue[..|queue| - 1];
      ReplaySendsToQueuedPeers(clock, init, live);
      var r := ReplaySends(clock, queue, live);
      forall k | 0 <= k < |r|
        ensures exists j :: 0 <= j < |queue| && queue[j].peer == r[k].to
      {
        if k < |ReplaySends(clock, init, live)| {
          var j :| 0 <= j < |init| && init[j].peer == r[k].to;
          assert queue[j] == init[j];
        } else {
          assert r[k].to == queue[|queue| - 1].peer;
        }
      }
    }
  }

  /** The index of the first occurrence of `x`: what `list.index(x)` returns. */
  function IndexOf(s: seq<Peer>, x: Peer): (k: nat)
    requires x in s
    ensures k < |s| && s[k] == x && x !in s[..k]
  {
    if s[0] == x then 0 else 1 + IndexOf(s[1..], x)
  }

  /** `del s[s.index(x)]`: the list without the first occurrence of `x`; unchanged when `x` is absent. */
  function RemoveFirst(s: seq<Peer>, x: Peer): (r: seq<Peer>)
    ensures x !in s ==> r == s
    ensures x in s ==> |r| == |s| - 1 && multiset(r) == multiset(s) - multiset{x}
    ensures x in s ==> exists k :: 0 <= k < |s| && s[k] == x && x !in s[..k] && r == s[..k] + s[k + 1..]
  {
    if x in s then
      var k := IndexOf(s, x);
      assert s == s[..k] + [s[k]] + s[k + 1..];
      s[..k] + s[k + 1..]
    else s
  }
}
