/**
 * The client's RoomManager: the room it has joined, the set of peer ids it
 * knows, the dispatch of incoming WebSocket and BroadcastChannel messages
 * to the application's callbacks, the signal envelopes it hands to
 * whichever transport is active, and the shareable room URL.
 *
 * The callbacks and the transports are recorded, in call order, as a log
 * of events; what the WebSocket transport does with a `send` request is
 * modelled in module WsSignaling.
 */
module Rooms {
  import opened Json

  /** What RoomManager reports to the application or asks of a transport. */
  datatype Event =
    | PeerJoined(peerId: Json, data: Json)        // onPeerJoined(peerId, data)
    | PeerLeft(peerId: Json)                      // onPeerLeft(peerId)
    | Signal(from: Json, kind: Json, data: Json)  // onSignal(from, type, data)
    | JoinReplyScheduled                          // the 100 ms timer that re-announces on the channel
    | WsSend(msg: Json)                           // wsSignaling.send(msg)
    | ChannelPost(msg: Json)                      // broadcastChannel.postMessage(msg)
    | PresencePingScheduled                       // the 5 s presence interval

  /** The part of the state that peer discovery changes: known peers and the event log. */
  datatype Discovery = Discovery(peers: set<Json>, events: seq<Event>)

  // ---------------------------------------------------------------------
  // handlePeerJoin / handlePeerLeave

  /** The effect of `handlePeerJoin(peerId, data)`. */
  function Joined(d: Discovery, peerId: Json, data: Json): Discovery
  {
    if peerId in d.peers then d
    else Discovery(d.peers + {peerId}, d.events + [PeerJoined(peerId, data), JoinReplyScheduled])
  }

  /** The effect of `handlePeerLeave(peerId)`. */
  function Left(d: Discovery, peerId: Json): Discovery
  {
    if peerId in d.peers then Discovery(d.peers - {peerId}, d.events + [PeerLeft(peerId)])
    else d
  }

  /**
   * A join fires `onPeerJoined` only for an unknown id and leaves the id
   * known; a second join of the same id changes nothing.
   */
  lemma JoinIdempotent(d: Discovery, peerId: Json, data: Json, again: Json)
    ensures peerId in Joined(d, peerId, data).peers
    ensures Joined(d, peerId, data).peers == d.peers + {peerId}
    ensures peerId in d.peers <==> Joined(d, peerId, data) == d
    ensures peerId !in d.peers ==>
      Joined(d, peerId, data).events == d.events + [PeerJoined(peerId, data), JoinReplyScheduled]
    ensures Joined(Joined(d, peerId, data), peerId, again) == Joined(d, peerId, data)
  {
    if peerId !in d.peers {
      assert |Joined(d, peerId, data).events| == |d.events| + 2;
    }
  }

  /** A leave fires `onPeerLeft` and forgets the id only if it was known. */
  lemma LeaveOnlyKnown(d: Discovery, peerId: Json)
    ensures Left(d, peerId).peers == d.peers - {peerId}
    ensures peerId !in d.peers <==> Left(d, peerId) == d
    ensures peerId in d.peers ==> Left(d, peerId).events == d.events + [PeerLeft(peerId)]
  {
    if peerId in d.peers {
      assert |Left(d, peerId).events| == |d.events| + 1;
    }
  }

  // ---------------------------------------------------------------------
  // The existing-peers list

  /** How far `data.peers.forEach` gets: it throws at the first null or undefined entry. */
  function Reach(items: seq<Json>): (n: nat)
    ensures n <= |items|
    ensures forall k | 0 <= k < n :: !Nullish(items[k])
    ensures n < |items| ==> Nullish(items[n])
  {
    if items == [] || Nullish(items[0]) then 0 else 1 + Reach(items[1..])
  }

  /** One entry of the list: every entry except self goes to `handlePeerJoin`. */
  function SeedOne(d: Discovery, self: Json, peer: Json): Discovery
  {
    var id := Get(peer, "userId");
    if id != self then Joined(d, id, JObj(map["username" := Get(peer, "username")])) else d
  }

  /** The effect of the `existing-peers` loop over `items`. */
  function Seeded(d: Discovery, self: Json, items: seq<Json>): Discovery
    decreases |items|
  {
    if items == [] || Nullish(items[0]) then d
    else Seeded(SeedOne(d, self, items[0]), self, items[1..])
  }

  /**
   * After the list, the known peers are the old ones plus the `userId` of
   * every entry before the first null entry, except self's.
   */
  lemma {:induction false} SeededPeers(d: Discovery, self: Json, items: seq<Json>, p: Json)
    ensures p in Seeded(d, self, items).peers
        <==> p in d.peers || (p != self && exists k | 0 <= k < Reach(items) :: Get(items[k], "userId") == p)
    decreases |items|
  {
    if items != [] && !Nullish(items[0]) {
      SeededPeers(SeedOne(d, self, items[0]), self, items[1..], p);
      if p != self && exists k | 0 <= k < Reach(items) :: Get(items[k], "userId") == p {
        var k :| 0 <= k < Reach(items) && Get(items[k], "userId") == p;
        if k > 0 {
          assert items[1..][k - 1] == items[k];
        }
      }
      if exists k | 0 <= k < Reach(items[1..]) :: Get(items[1..][k], "userId") == p {
        var k :| 0 <= k < Reach(items[1..]) && Get(items[1..][k], "userId") == p;
        assert items[k + 1] == items[1..][k];
      }
    }
  }

  /** The list never makes self a known peer, and `onPeerJoined` only ever fires for ids new at that point. */
  lemma {:induction false} SeededFresh(d: Discovery, self: Json, items: seq<Json>)
    ensures self !in d.peers ==> self !in Seeded(d, self, items).peers
    ensures |d.events| <= |Seeded(d, self, items).events|
    ensures Seeded(d, self, items).events[..|d.events|] == d.events
    ensures forall e | e in Seeded(d, self, items).events[|d.events|..] ::
      e.PeerJoined? || e.JoinReplyScheduled?
    ensures forall e | e in Seeded(d, self, items).events[|d.events|..] ::
      e.PeerJoined? ==> e.peerId !in d.peers && e.peerId != self
    decreases |items|
  {
    if items != [] && !Nullish(items[0]) {
      var d1 := SeedOne(d, self, items[0]);
      SeededFresh(d1, self, items[1..]);
      var fin := Seeded(d1, self, items[1..]).events;
      assert fin[|d.events|..] == d1.events[|d.events|..] + fin[|d1.events|..];
    }
  }

  // ---------------------------------------------------------------------
  // Dispatch

  predicate IsSignalType(t: Json)
  {
    t == JStr("offer") || t == JStr("answer") || t == JStr("ice-candidate")
  }

  /** `handleWebSocketMessage(message, ...)` on the discovery state; `self` is `this.userId`. */
  function WsDispatch(d: Discovery, self: Json, message: Json): Discovery
  {
    if Nullish(message) then d  // the destructuring throws; the transport catches it
    else
      var kind, from, data := Get(message, "type"), Get(message, "from"), Get(message, "data");
      if from == self then d
      else if kind == JStr("peer-joined") then Joined(d, from, Or(data, JObj(map[])))
      else if kind == JStr("peer-left") then Left(d, from)
      else if kind == JStr("existing-peers") then
        if Truthy(data) && Truthy(Get(data, "peers")) && Get(data, "peers").JArr? then
          Seeded(d, self, Get(data, "peers").items)
        else d
      else if IsSignalType(kind) then Discovery(d.peers, d.events + [Signal(from, kind, data)])
      else d
  }

  /** The BroadcastChannel `onmessage` handler on the discovery state. */
  function ChannelDispatch(d: Discovery, self: Json, message: Json): Discovery
  {
    if Nullish(message) then d
    else
      var kind, from, data := Get(message, "type"), Get(message, "from"), Get(message, "data");
      if from == self then d
      else if kind == JStr("join") then Joined(d, from, data)
      else if kind == JStr("leave") then Left(d, from)
      else if IsSignalType(kind) then Discovery(d.peers, d.events + [Signal(from, kind, data)])
      else d
  }

  /** A message that claims to come from self is dropped before any dispatch. */
  lemma SelfMessagesDropped(d: Discovery, self: Json, message: Json)
    requires Get(message, "from") == self
    ensures WsDispatch(d, self, message) == d
    ensures ChannelDispatch(d, self, message) == d
  {
  }

  /**
   * Only `offer`, `answer` and `ice-candidate` reach `onSignal`, carrying
   * the message's own `from`, `type` and `data`; any type the dispatcher
   * does not know changes nothing.
   */
  lemma SignalRouting(d: Discovery, self: Json, message: Json)
    requires !Nullish(message) && Get(message, "from") != self
    ensures IsSignalType(Get(message, "type")) ==>
      WsDispatch(d, self, message)
        == Discovery(d.peers, d.events + [Signal(Get(message, "from"), Get(message, "type"), Get(message, "data"))])
      && ChannelDispatch(d, self, message) == WsDispatch(d, self, message)
    ensures var t := Get(message, "type");
      (!IsSignalType(t) && t != JStr("peer-joined") && t != JStr("peer-left") && t != JStr("existing-peers"))
        ==> WsDispatch(d, self, message) == d
    ensures var t := Get(message, "type");
      (!IsSignalType(t) && t != JStr("join") && t != JStr("leave")) ==> ChannelDispatch(d, self, message) == d
  {
  }

  /**
   * What the client makes of the three directory messages the server
   * sends (module Server): they carry `userId` and `peers` at the top
   * level while the dispatcher reads `from` and `data.peers`, so a
   * `peer-joined` registers the id `undefined`, a `peer-left` can only
   * forget `undefined`, and an `existing-peers` snapshot is ignored.
   */
  lemma DirectoryMessagesAsRead(d: Discovery, self: Json, userId: Json, username: Json, peers: seq<Json>)
    requires self != JUndefined
    ensures WsDispatch(d, self, JObj(map["type" := JStr("peer-joined"), "userId" := userId, "username" := username]))
         == Joined(d, JUndefined, JObj(map[]))
    ensures WsDispatch(d, self, JObj(map["type" := JStr("peer-left"), "userId" := userId]))
         == Left(d, JUndefined)
    ensures WsDispatch(d, self, JObj(map["type" := JStr("existing-peers"), "peers" := JArr(peers)])) == d
  {
    var joined := JObj(map["type" := JStr("peer-joined"), "userId" := userId, "username" := username]);
    assert Get(joined, "from") == JUndefined && Get(joined, "data") == JUndefined;
    var left := JObj(map["type" := JStr("peer-left"), "userId" := userId]);
    assert Get(left, "from") == JUndefined;
    var existing := JObj(map["type" := JStr("existing-peers"), "peers" := JArr(peers)]);
    assert Get(existing, "from") == JUndefined && Get(existing, "data") == JUndefined;
  }

  // ---------------------------------------------------------------------
  // sendSignal

  /** The envelope `sendSignal(peerId, type, data)` hands to the active transport, if any. */
  function SignalRequest(viaWebSocket: bool, hasChannel: bool, userId: Json, peerId: Json, kind: string, data: Json)
    : Option<Event>
  {
    if viaWebSocket then
      Some(WsSend(JObj(map["type" := JStr("signal"), "to" := peerId, "signalType" := JStr(kind), "data" := data])))
    else if hasChannel then
      Some(ChannelPost(JObj(map["type" := JStr(kind), "from" := userId, "to" := peerId, "data" := data])))
    else None
  }

  /**
   * Over the WebSocket the envelope is a `signal` addressed with `to`
   * and typed by `signalType`; over the channel it is typed by the signal
   * type itself and stamped with the own id; with neither nothing is sent.
   */
  lemma SignalRequestShape(viaWebSocket: bool, hasChannel: bool, userId: Json, peerId: Json, kind: string, data: Json)
    ensures var r := SignalRequest(viaWebSocket, hasChannel, userId, peerId, kind, data);
      && (r.None? <==> !viaWebSocket && !hasChannel)
      && (viaWebSocket ==>
            && r.value.WsSend?
            && Get(r.value.msg, "type") == JStr("signal") && Get(r.value.msg, "to") == peerId
            && Get(r.value.msg, "signalType") == JStr(kind) && Get(r.value.msg, "data") == data)
      && (!viaWebSocket && hasChannel ==>
            && r.value.ChannelPost?
            && Get(r.value.msg, "type") == JStr(kind) && Get(r.value.msg, "from") == userId
            && Get(r.value.msg, "to") == peerId && Get(r.value.msg, "data") == data)
  {
  }

  // ---------------------------------------------------------------------
  // The room URL

  function RoomUrl(base: string, roomId: Json): string
  {
    base + "#room/" + ToStr(roomId)
  }

  /** `location.hash` of an address: from the first `#` on, or "" when there is none or it is last. */
  function Hash(url: string): string
    decreases |url|
  {
    if url == [] then ""
    else if url[0] == '#' then (if |url| == 1 then "" else url)
    else Hash(url[1..])
  }

  /** Characters the regular expression `.` does not match. */
  predicate IsLineTerminator(ch: char)
  {
    ch == '\n' || ch == '\r' || ch == '\U{2028}' || ch == '\U{2029}'
  }

  /** `hash.substring(1).match(/^room\/(.+)$/)`, giving the group or null. */
  function ParseRoom(hash: string): Option<string>
  {
    var h := if hash == [] then [] else hash[1..];
    if |h| > 5 && h[..5] == "room/" && forall k | 5 <= k < |h| :: !IsLineTerminator(h[k]) then Some(h[5..])
    else None
  }

  /**
   * Characters a browser keeps as they are in a fragment: printable ASCII
   * other than space, `"`, `<`, `>` and the backtick (the others it
   * percent-encodes, which this model does not follow).
   */
  predicate FragmentSafe(s: string)
  {
    forall k | 0 <= k < |s| :: '!' <= s[k] <= '~' && s[k] != '"' && s[k] != '<' && s[k] != '>' && s[k] != '`'
  }

  lemma {:induction false} HashAfterBase(base: string, rest: string)
    requires forall k | 0 <= k < |base| :: base[k] != '#'
    requires |rest| > 1 && rest[0] == '#'
    ensures Hash(base + rest) == rest
    decreases |base|
  {
    if base != [] {
      assert (base + rest)[1..] == base[1..] + rest;
      HashAfterBase(base[1..], rest);
    } else {
      assert base + rest == rest;
    }
  }

  /**
   * The room URL round-trips: opening `getRoomUrl()` of a non-empty room
   * name that needs no escaping in a fragment yields that name again.
   */
  lemma RoomUrlRoundTrip(base: string, room: string)
    requires forall k | 0 <= k < |base| :: base[k] != '#'
    requires room != [] && FragmentSafe(room)
    ensures ParseRoom(Hash(RoomUrl(base, JStr(room)))) == Some(room)
  {
    var rest := "#room/" + room;
    assert RoomUrl(base, JStr(room)) == base + rest;
    HashAfterBase(base, rest);
    var h := rest[1..];
    assert h == "room/" + room;
    assert h[..5] == "room/" && h[5..] == room;
    forall k | 5 <= k < |h| ensures !IsLineTerminator(h[k]) {
      assert h[k] == room[k - 5];
    }
  }

  /** A hash that does not start with `#room/` followed by something gives null. */
  lemma ParseRoomRejects(hash: string)
    requires |hash| <= 6 || hash[1..6] != "room/"
    ensures ParseRoom(hash) == None
  {
    if |hash| > 6 {
      assert hash[1..][..5] == hash[1..6];
    }
  }

  // ---------------------------------------------------------------------
  // The RoomManager object

  datatype RoomInfo = RoomInfo(roomId: Json, userId: Json, username: Json, peerCount: nat)

  class RoomManager {
    var roomId: Json
    var userId: Json
    var username: Json
    var peers: set<Json>
    var events: seq<Event>
    var useWebSocket: bool
    var hasWsSignaling: bool   // this.wsSignaling is set
    var hasChannel: bool       // this.broadcastChannel is set
    var channelName: string

    constructor ()
      ensures roomId == JNull && userId == JNull && username == JNull
      ensures peers == {} && events == []
      ensures !useWebSocket && !hasWsSignaling && !hasChannel
    {
      roomId, userId, username := JNull, JNull, JNull;
      peers, events := {}, [];
      useWebSocket, hasWsSignaling, hasChannel := false, false, false;
      channelName := "";
    }

    function View(): Discovery
      reads this
    {
      Discovery(peers, events)
    }

    /** `getRoomInfo()`: the room, the own identity, and how many peers are known. */
    function GetRoomInfo(): (r: RoomInfo)
      reads this
      ensures r.peerCount == |peers|
      ensures r.roomId == roomId && r.userId == userId && r.username == username
    {
      RoomInfo(roomId, userId, username, |peers|)
    }

    /** `joinRoom`: records the room and the own identity (session storage is not modelled). */
    method JoinRoom(room: Json, user: Json, name: Json)
      modifies this
      ensures roomId == room && userId == user && username == name
      ensures peers == old(peers) && events == old(events)
      ensures useWebSocket == old(useWebSocket) && hasWsSignaling == old(hasWsSignaling)
      ensures hasChannel == old(hasChannel) && channelName == old(channelName)
    {
      roomId, userId, username := room, user, name;
    }

    /** `leaveRoom`: forgets the room, the identity and every known peer; the transports stay as they are. */
    method LeaveRoom()
      modifies this
      ensures roomId == JNull && userId == JNull && username == JNull && peers == {}
      ensures GetRoomInfo().peerCount == 0
      ensures events == old(events)
      ensures useWebSocket == old(useWebSocket) && hasWsSignaling == old(hasWsSignaling)
      ensures hasChannel == old(hasChannel) && channelName == old(channelName)
    {
      roomId, userId, username := JNull, JNull, JNull;
      peers := {};
    }

    /**
     * `initializeSignaling`: throws when no room is joined; otherwise uses
     * the WebSocket transport when its `connect` succeeded
     * (`wsConnected`) and falls back to a BroadcastChannel, which the
     * environment may not support (`channelSupported`).
     */
    method InitializeSignaling(wsConnected: bool, channelSupported: bool, now: int) returns (ok: bool)
      modifies this
      ensures ok <==> Truthy(old(roomId))
      ensures !ok ==>
        && events == old(events) && useWebSocket == old(useWebSocket)
        && hasWsSignaling == old(hasWsSignaling) && hasChannel == old(hasChannel)
        && channelName == old(channelName)
      ensures ok ==> hasWsSignaling && useWebSocket == wsConnected
      ensures ok && wsConnected ==>
        events == old(events) && hasChannel == old(hasChannel) && channelName == old(channelName)
      ensures ok && !wsConnected && channelSupported ==>
        && hasChannel && channelName == "wisphergrid_" + ToStr(roomId)
        && events == old(events) + [ChannelPost(JObj(map["type" := JStr("join"), "from" := userId,
               "data" := JObj(map["username" := username, "timestamp" := JNum(now)])])), PresencePingScheduled]
      ensures ok && !wsConnected && !channelSupported ==>
        events == old(events) && hasChannel == old(hasChannel) && channelName == old(channelName)
      ensures roomId == old(roomId) && userId == old(userId) && username == old(username) && peers == old(peers)
    {
      if !Truthy(roomId) {
        return false;
      }
      ok := true;
      hasWsSignaling := true;
      if wsConnected {
        useWebSocket := true;
        return;
      }
      useWebSocket := false;
      if channelSupported {
        hasChannel := true;
        channelName := "wisphergrid_" + ToStr(roomId);
        events := events + [ChannelPost(JObj(map["type" := JStr("join"), "from" := userId,
                   "data" := JObj(map["username" := username, "timestamp" := JNum(now)])])), PresencePingScheduled];
      }
    }

    method HandlePeerJoin(peerId: Json, data: Json)
      modifies this`peers, this`events
      ensures View() == Joined(old(View()), peerId, data)
    {
      if peerId !in peers {
        peers := peers + {peerId};
        events := events + [PeerJoined(peerId, data), JoinReplyScheduled];
      }
    }

    method HandlePeerLeave(peerId: Json)
      modifies this`peers, this`events
      ensures View() == Left(old(View()), peerId)
    {
      if peerId in peers {
        peers := peers - {peerId};
        events := events + [PeerLeft(peerId)];
      }
    }

    /** The `existing-peers` loop: each entry but self's is joined, up to the first null entry. */
    method SeedPeers(items: seq<Json>)
      modifies this`peers, this`events
      ensures View() == Seeded(old(View()), userId, items)
    {
      var i := 0;
      while i < |items|
        invariant 0 <= i <= |items|
        invariant Seeded(View(), userId, items[i..]) == Seeded(old(View()), userId, items)
      {
        var peer := items[i];
        assert items[i..][0] == peer && items[i..][1..] == items[i + 1..];
        if Nullish(peer) {
          return;
        }
        if Get(peer, "userId") != userId {
          HandlePeerJoin(Get(peer, "userId"), JObj(map["username" := Get(peer, "username")]));
        }
        i := i + 1;
      }
    }

    /** `handleWebSocketMessage`. */
    method HandleWebSocketMessage(message: Json)
      modifies this`peers, this`events
      ensures View() == WsDispatch(old(View()), userId, message)
    {
      if Nullish(message) {
        return;
      }
      var kind, from, data := Get(message, "type"), Get(message, "from"), Get(message, "data");
      if from == userId {
        return;
      }
      if kind == JStr("peer-joined") {
        HandlePeerJoin(from, Or(data, JObj(map[])));
      } else if kind == JStr("peer-left") {
        HandlePeerLeave(from);
      } else if kind == JStr("existing-peers") {
        if Truthy(data) && Truthy(Get(data, "peers")) && Get(data, "peers").JArr? {
          SeedPeers(Get(data, "peers").items);
        }
      } else if IsSignalType(kind) {
        events := events + [Signal(from, kind, data)];
      }
    }

    /** The BroadcastChannel `onmessage` handler. */
    method OnChannelMessage(message: Json)
      modifies this`peers, this`events
      ensures View() == ChannelDispatch(old(View()), userId, message)
    {
      if Nullish(message) {
        return;
      }
      var kind, from, data := Get(message, "type"), Get(message, "from"), Get(message, "data");
      if from == userId {
        return;
      }
      if kind == JStr("join") {
        HandlePeerJoin(from, data);
      } else if kind == JStr("leave") {
        HandlePeerLeave(from);
      } else if IsSignalType(kind) {
        events := events + [Signal(from, kind, data)];
      }
    }

    /** `sendSignal(peerId, type, data)`. */
    method SendSignal(peerId: Json, kind: string, data: Json)
      modifies this`events
      ensures var r := SignalRequest(useWebSocket && hasWsSignaling, hasChannel, userId, peerId, kind, data);
        events == old(events) + (if r.Some? then [r.value] else [])
    {
      if useWebSocket && hasWsSignaling {
        events := events + [WsSend(JObj(map["type" := JStr("signal"), "to" := peerId,
                                             "signalType" := JStr(kind), "data" := data]))];
      } else if hasChannel {
        events := events + [ChannelPost(JObj(map["type" := JStr(kind), "from" := userId,
                                                 "to" := peerId, "data" := data]))];
      }
    }
  }
}
