# A verified model of a Ricart–Agrawala peer-to-peer node

This project models the core of `node.py`, a peer-to-peer node that takes part in
distributed mutual exclusion. N processes, connected pairwise over TCP, take turns
holding a critical section. Each runs a three-state election machine (DO-NOT-WANT,
WANTED, HELD) with a Lamport logical clock. Requests are GIVE messages and grants are
OK messages, and ties are broken by an integer rank taken from the node id.

What the model contains:

- `wrappers.dfy` — `Option`.
- `ids.dfy` (module `Ids`) — `get_id_as_int`: the rank is the integer written after the
  id's first character. An id without such a numeral has no rank (Python raises).
  A decimal encoder proves that the round trip holds for ids such as `P12`.
- `protocol.dfy` (module `Protocol`) — the values: a handle is a `Peer(host, port, id)`,
  a message is `Message(timestamp, kind)`, a send is `Send(to, msg)`, and a `request_que`
  entry is `Deferred(peer, msg)`. It also holds the reference definitions the node is
  proved against:
  - `React` is the decision table of `node_message`.
  - `Deliveries` is what a broadcast hands out.
  - `ReplayClock` and `ReplaySends` say what leaving HELD does.
  - `RemoveFirst` is `del s[s.index(x)]`.
  - Lemmas about these give the protocol's properties.
- `node.dfy` (module `P2P`) — class `Node`, whose fields are those of the Python object
  (`state`, `timestamp`, `requestTimestamp`, `electionApprovals`, `requestQue`,
  `nodesInbound`, `nodesOutbound`, `reconnectToNodes`). Its methods update them in place,
  as the source does. Every `n.send(data)` appends to the `outbox` field. A dial-and-id
  exchange is a `Handshake` parameter. An expired timer is the `due` parameter of
  `Election`. `node_message` is taken as atomic.

The invariant `Valid()` says two things: a WANTED node has a request timestamp, and the
queue holds only GIVE requests. `ClockDominates()` says the clock is past every timestamp
the node has sent and past its request timestamp, and at least every deferred timestamp.
`NodeMessage` and `Election` preserve both, and they never move the clock backwards.

## Where the code departs from Ricart–Agrawala as usually described (the model follows the code)

- **Ties go to the higher rank.** The comment at node.py:356 says the lower id wins a
  tie. The code defers when `rank(self) > rank(sender)`, so the higher-ranked node
  collects every OK and enters HELD first (`Protocol.HigherRankWinsTie`,
  `Protocol.TieBetweenP1AndP2`). Each single tie decision is antisymmetric: two WANTED
  nodes of distinct ranks that receive each other's request answer oppositely
  (`Protocol.ExactlyOneOfTwoWantedReplies`, `P2P.TieBreakExchange`). This does not make
  the protocol as written mutually exclusive; see the next two points.
- **The clock ticks for each send.** Ricart–Agrawala as usually described advances the
  clock once per broadcast. In the code, `send_to_nodes` ticks once and each
  `send_to_node` ticks again, so entering WANTED moves the clock by 1 + |all_nodes|.
  Answering a GIVE with OK also ticks, so after `node_message` the clock is
  `max(old, ts)`, plus 1 whenever it answers with OK, whether or not the OK is delivered.
- **`send_to_node` ticks even when the handle is gone.** The clock advances even when
  the handle is no longer registered. Nothing is sent in that case.
- **The deferred queue is never cleared.** The algorithm empties its deferred set when it
  leaves the critical section. The code only iterates over `request_que`
  (node.py:291-292). Each later exit from HELD therefore answers the same old requests
  again (`Protocol.SecondReplayAnswersAgain`).
- **Approvals are reset in one place only, and any OK counts.** `election_approvals` is
  set to 0 only on WANTED → HELD (node.py:287). Entering WANTED does not reset it, and an
  OK is counted in every state, whatever request it answers
  (`Protocol.OkCountedInEveryState`). Together with the uncleared queue this lets stale
  OKs put two nodes in HELD at once. For example, with two nodes P1 and P2:
  1. P1 holds and defers P2's GIVE.
  2. P1 releases. P2 holds, then releases. P1 holds again.
  3. When P1 releases again, its old queue sends P2 a second OK, which P2 counts while
     in DO-NOT-WANT.
  4. P1 holds a third time. P2 enters WANTED already carrying that approval, and passes
     the test at node.py:286 while P1 is still HELD.
- **Approvals must match exactly.** The test at node.py:286 is `==`, not `>=`. A node
  whose approvals overshoot the number of handles therefore stays WANTED for good (the
  WANTED case of `P2P.Node.Election`).
- **Distinct ids can share a rank.** Ranks ignore leading zeros: `P01` and `P1` have the
  same rank (`Ids.LeadingZeroRankCollision`). Two such nodes that tie then both reply OK
  (`Protocol.EqualRanksBothReply`). The tie-break lemmas therefore require distinct ranks.

## Model

| member | source | states |
|---|---|---|
| `Ids.ParseInt` | node.py:14 | `int(s)` yields a value exactly for an optional sign followed by digits; that value is the digits' decimal value, negated after `-` and unchanged after `+` or with no sign |
| `Ids.IdAsInt` | node.py:13-14 | an id has a rank exactly when everything after its first character is an integer literal; the rank is that tail's decimal value, negated after `-` (so "P-3" ranks -3) |
| `Ids.IdRankRoundTrip` | node.py:13-14 | an id made of one character followed by the decimal numeral of n has rank n |
| `Ids.RankIgnoresPrefix` | node.py:14 | the first character of an id plays no part in its rank |
| `Ids.LeadingZeroRankCollision` | node.py:14 | the distinct ids "P01" and "P1" have the same rank, 1 |
| `Protocol.Max` | node.py:347 | the clock merge is at least both arguments and equals one of them |
| `Protocol.ParseKind` | node.py:349-367 | a message text is GIVE exactly when it is "GIVE" and OK exactly when it is "OK"; any other text is kept as it is |
| `Protocol.React` | node.py:349-368 | what `node_message` does after the clock merge: an OK is always counted and any other kind ignored; a GIVE is answered in DO-NOT-WANT and deferred in HELD; in WANTED a tie fails exactly when one of the two ids has no rank (the timestamp and rank comparison is stated by the two lemmas below) |
| `Protocol.OkCountedInEveryState` | node.py:367-368 | an OK is counted as an approval in every state, whatever request it answers |
| `Protocol.WantedRepliesIffSenderGoesFirst` | node.py:354-366 | a WANTED node replies OK to a GIVE exactly when the sender's (timestamp, rank) goes first: older, or as old with a rank at least as high. Otherwise it defers |
| `Protocol.WantedRankErrorIffUnrankedTie` | node.py:355-357 | a WANTED node fails exactly on a timestamp tie in which one of the two ids has no rank |
| `Protocol.DoNotWantAlwaysReplies` | node.py:349-351 | a DO-NOT-WANT node answers every GIVE with OK |
| `Protocol.ExactlyOneOfTwoWantedReplies` | node.py:354-366 | two WANTED nodes of distinct ranks, each receiving the other's request, answer oppositely: exactly one replies OK and the other defers |
| `Protocol.HigherRankWinsTie` | node.py:355-360 | on a timestamp tie the higher-ranked node defers and the lower-ranked one replies OK |
| `Protocol.TieBetweenP1AndP2` | node.py:355-360 | tied at one timestamp, P1 answers P2 and P2 defers P1 |
| `Protocol.EqualRanksBothReply` | node.py:355-360 | two tied nodes whose distinct ids share a rank both reply OK |
| `Protocol.SendTo` | node.py:123-126 | an addressed send delivers `m` to `p` exactly when `p` is a live handle, and delivers nothing otherwise |
| `Protocol.Deliveries` | node.py:108-118 | what one loop of `send_to_nodes` hands out: the message to each listed handle not in `exclude`, in list order, so never more sends than handles |
| `Protocol.DeliveriesSound` | node.py:108-118 | a broadcast carries only its message, and only to listed handles that are not excluded |
| `Protocol.DeliveriesAppend` | node.py:108-118 | broadcasting over inbound and then outbound is broadcasting over their concatenation, in that order |
| `Protocol.DeliveriesMultiplicity` | node.py:108-118 | every non-excluded handle receives the message once per occurrence in the list (exactly once when listed once); excluded handles and other messages never appear |
| `Protocol.DeliveriesToAll` | node.py:103-118 | with nothing excluded, send k of a broadcast goes to handle k, for every handle |
| `Protocol.DeliveriesStampedBelow` | node.py:107 | a broadcast of a message stamped below a clock only holds sends stamped below it |
| `Protocol.ReplayClock` | node.py:289-292 | the clock after leaving HELD: each queued request merges its timestamp (node.py:347) and then its OK ticks once (node.py:122), so the clock rises by at least one per entry |
| `Protocol.ReplaySends` | node.py:289-292 | the OKs the replay sends: for each queued request in order, one OK stamped with the merged clock, to its sender if that handle is still live (node.py:350-351, 420-421), so at most one per entry |
| `Protocol.ReplayClockGrows` | node.py:289-292 | replaying the queue moves the clock up by at least one per entry and past every replayed timestamp |
| `Protocol.ReplaySendsBelowClock` | node.py:289-292 | every OK sent during the replay is stamped below the clock the replay ends with |
| `Protocol.ReplayAnswersEachEntry` | node.py:289-292 | when every deferred sender is still connected, the replay sends exactly one OK per entry, to that entry's sender, in recorded order |
| `Protocol.ReplaySendsToQueuedPeers` | node.py:289-292 | every OK of a replay goes to a live handle recorded in the queue |
| `Protocol.SecondReplayAnswersAgain` | node.py:289-292 | because the queue is not cleared, a second HELD exit sends the first recorded sender another OK |
| `Protocol.IndexOf` | node.py:325 | `list.index` gives the first position holding the handle |
| `Protocol.RemoveFirst` | node.py:324-330 | deleting at `index(x)` removes exactly the first occurrence and keeps the rest in order; the list is unchanged when `x` is absent |
| `P2P.FindAddress` | node.py:141-144 | the outbound scan finds a handle exactly when one has the given host and port |
| `P2P.FindHostAndId` | node.py:164-169 | the inbound scan finds a handle exactly when one has the given host and id |
| `P2P.Node.constructor` | node.py:31-77 | a new node is DO-NOT-WANT at clock 0, has no request timestamp, no approvals, empty lists and the given identity |
| `P2P.Node.AllNodes` | node.py:79-82 | all handles: as many as both lists together, and exactly the members of either |
| `P2P.Node.SendToNode` | node.py:120-126 | the clock ticks once; the message goes out only to a registered handle; nothing else changes |
| `P2P.Node.SendToNodes` | node.py:103-118 | the broadcast delivers to the non-excluded handles, inbound first. The clock rises by 1 plus the number delivered, and clock dominance is kept for a message stamped no later than the clock |
| `P2P.Node.SendToEach` | node.py:108-118 | one loop of the broadcast sends to each non-excluded listed handle, one tick each |
| `P2P.Node.SendOkResponse` | node.py:420-421 | OK is stamped with the current clock and sent through the addressed send |
| `P2P.Node.NodeMessage` | node.py:345-368 | merges the clock, then replies, defers, counts or ignores as `React` decides. It states the exact new clock, outbox, queue and approval count, and leaves the state and lists alone. It reports the ValueError of an unranked tie |
| `P2P.Node.Election` | node.py:276-296 | nothing happens unless due. DO-NOT-WANT → WANTED records the clock and sends one GIVE per handle. WANTED → HELD only when approvals equal the handle count, resetting them; otherwise it stays WANTED. HELD → DO-NOT-WANT replays the queue and leaves it in place |
| `P2P.Node.ReplayRequestQue` | node.py:289-292 | with the state already DO-NOT-WANT, each recorded request is answered in order; the queue and the approvals are unchanged |
| `P2P.Node.Tick` | node.py:267-269 | the election runs only once all other nodes of the network are connected |
| `P2P.Node.ConnectWithNode` | node.py:128-188 | covers each guard. Its own address gives False with no change. An existing outbound handle gives True with no change. A failed dial gives False. The node's own id, or an inbound handle with that host and id, gives True with no change. Otherwise exactly one outbound handle is appended, plus a 0-try reconnection entry when asked |
| `P2P.Node.AcceptInbound` | node.py:249-260 | an accepted connection adds exactly one inbound handle with the peer's id and address |
| `P2P.Node.NodeDisconnected` | node.py:318-330 | the handle is removed (first occurrence) from each list holding it, and nothing else changes |
| `P2P.Node.DisconnectWithNode` | node.py:190-200 | only an outbound handle is told to stop; the lists are not touched |
| `P2P.TieBreakExchange` | node.py:347-366 | for two WANTED nodes with one request timestamp and distinct ranks, exchanging GIVEs makes exactly one defer, the higher-ranked one. The deferring node sends nothing and its clock is the merge. The other's queue is unchanged, it sends one OK stamped with its merged clock to the requester through `SendTo`, and its clock is the merge plus one. Both stay WANTED, neither counts an approval, and no other field changes |

## Left out

- Sockets and bytes are not modelled. This covers `init_server`, dialling, the raw id
  exchange, the `CLOSING:` notice sent before a rejected session is closed,
  `print_connections` and `NodeConnection`. A dial plus id exchange is a `Handshake`
  value, a send is an `outbox` entry, and an accepted connection is `AcceptInbound`.
  `NodeConnection` is not part of this model.
- Handles are compared as values `(host, port, id)`. Python compares connection objects
  by identity, so two live sessions with the same triple are one value here.
- Threads and shutdown are not modelled: `run`'s accept loop and its timeout, `stop`,
  `close`, `terminate_flag`, `join` and `sleep`. `node_message` is atomic. Only the
  election gate of `run` (`Tick`) and its handle registration (`AcceptInbound`) are
  modelled.
- Wall-clock time and random durations are not modelled: `time.time()`, `next_execution`
  and `get_timeout`'s `random.uniform`. Whether the timer is due is the `due` parameter.
- The `RuntimeError` branches of `election` and `get_timeout` are not modelled. The state
  is a three-valued type here, so they cannot be reached.
- `reconnect_nodes` is not modelled. `connect_with_node` creates each entry with key
  `"tries"` (node.py:179-181), but `reconnect_nodes` only ever reads and writes `"trials"`.
  A check that finds the handle creates `"trials"` (node.py:226), so after a first hit a
  miss just increments it and `"tries"` is dead. A miss before any hit raises `KeyError`
  at node.py:231. The removal from the list being iterated over (node.py:239) runs only
  when `node_reconnection_error` returns False, and the default (node.py:392) always
  returns True. `ConnectWithNode` does record the `{"tries": 0}` entry.
- Event callbacks (`*_connected`, `*_disconnected`, `node_request_to_stop`,
  `node_reconnection_error`) and `debug_print` do nothing here.
  `disconnect_with_node`'s `node.stop()` is recorded in the `stopping` log. The later
  removal of the handle is `NodeDisconnected`.
- Exceptions from creating or starting a connection thread after a successful handshake
  are not modelled.
- `Ids.ParseInt`: surrounding whitespace, `_` digit separators and non-ASCII digits,
  all of which Python's `int` accepts, are not modelled. Nor is the reverse case:
  recent CPython releases raise `ValueError` on a decimal string of more than 4300
  digits, where `ParseInt` gives a value. A peer's id cannot be that long, because
  `recv(4096)` at node.py:153 bounds it; only an id given to the constructor can.
- `P2P.Node.Tick`: when the gate is open the contract does not repeat `Election`'s full
  outcome. It promises only the invariants and the clock bound.
- Runs of several nodes exchanging messages are not modelled, because that needs a model
  of message delivery between nodes. Mutual exclusion (at most one HELD node at any time)
  does not hold as the code is written: the stale-OK trace above breaks it. That trace
  is argued from the contracts of `NodeMessage`, `Election` and
  `SecondReplayAnswersAgain`; it is not stated as a lemma. Only single pairwise tie
  decisions (`ExactlyOneOfTwoWantedReplies`, `TieBreakExchange`) are proved.
- `main.py` (the interactive shell and node start-up) is not part of this model.
