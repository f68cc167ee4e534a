/**
 * The WebSocket signaling server: a directory from room id to the set of
 * connections in it (kept in insertion order, as a JavaScript `Set`
 * iterates), the `message` handler for `join`, `signal`,
 * `broadcast-signal` and `broadcast`, the `close` handler, and the two
 * routing helpers `broadcastToRoom` and `forwardToPeer`. Everything the
 * server sends is appended to an outbox of deliveries.
 */
module Server {
  import opened Json

  type ConnId = nat

  /**
   * One client connection: the `userId` and `username` the join handler
   * stored on it, whether its `readyState` is OPEN, and the `currentRoom`
   * of its handler closure (null until the first join).
   */
  datatype Conn = Conn(userId: Json, username: Json, open: bool, currentRoom: Json)

  /** `ws.send(JSON.stringify(msg))` to connection `to`. */
  datatype Delivery = Delivery(to: ConnId, msg: Json)

  const Unknown := JStr("Unknown")

  predicate IsOpen(conns: map<ConnId, Conn>, c: ConnId)
  {
    c in conns && conns[c].open
  }

  // ---------------------------------------------------------------------
  // broadcastToRoom

  /** Whom `broadcastToRoom` writes to: an OPEN member that is not `exclude`. */
  predicate Admits(conns: map<ConnId, Conn>, exclude: Option<ConnId>, c: ConnId)
  {
    IsOpen(conns, c) && exclude != Some(c)
  }

  /** The deliveries of `broadcastToRoom` over `members`, in iteration order. */
  function Broadcast(members: seq<ConnId>, conns: map<ConnId, Conn>, exclude: Option<ConnId>, m: Json): seq<Delivery>
    decreases |members|
  {
    if members == [] then []
    else
      var last := members[|members| - 1];
      Broadcast(members[..|members| - 1], conns, exclude, m)
        + (if Admits(conns, exclude, last) then [Delivery(last, m)] else [])
  }

  /** A broadcast reaches exactly the admitted members, with the message unchanged. */
  lemma {:induction false} BroadcastRecipients(members: seq<ConnId>, conns: map<ConnId, Conn>, exclude: Option<ConnId>, m: Json, d: Delivery)
    ensures d in Broadcast(members, conns, exclude, m)
        <==> d.msg == m && d.to in members && Admits(conns, exclude, d.to)
    decreases |members|
  {
    if members != [] {
      var init := members[..|members| - 1];
      BroadcastRecipients(init, conns, exclude, m, d);
      assert members == init + [members[|members| - 1]];
    }
  }

  /** Over a duplicate-free room, nobody receives a broadcast twice. */
  lemma {:induction false} BroadcastOnce(members: seq<ConnId>, conns: map<ConnId, Conn>, exclude: Option<ConnId>, m: Json)
    requires NoDup(members)
    ensures NoDup(Broadcast(members, conns, exclude, m))
    decreases |members|
  {
    if members != [] {
      var init := members[..|members| - 1];
      var last := members[|members| - 1];
      BroadcastOnce(init, conns, exclude, m);
      BroadcastRecipients(init, conns, exclude, m, Delivery(last, m));
      assert last !in init;
    }
  }

  /** The loop of `broadcastToRoom` (signaling-server.js:144-148). */
  method BroadcastLoop(members: seq<ConnId>, conns: map<ConnId, Conn>, exclude: Option<ConnId>, m: Json)
    returns (out: seq<Delivery>)
    ensures out == Broadcast(members, conns, exclude, m)
  {
    out := [];
    var i := 0;
    while i < |members|
      invariant 0 <= i <= |members|
      invariant out == Broadcast(members[..i], conns, exclude, m)
    {
      var ws := members[i];
      assert members[..i + 1][..i] == members[..i];
      if ws in conns && conns[ws].open && exclude != Some(ws) {
        out := out + [Delivery(ws, m)];
      }
      i := i + 1;
    }
    assert members[..i] == members;
  }

  // ---------------------------------------------------------------------
  // forwardToPeer

  /** An OPEN member whose stored `userId` is `target` (strict equality). */
  predicate Addressed(conns: map<ConnId, Conn>, target: Json, c: ConnId)
  {
    IsOpen(conns, c) && conns[c].userId == target
  }

  /** The direct sends of `forwardToPeer`'s loop. */
  function Targeted(members: seq<ConnId>, conns: map<ConnId, Conn>, target: Json, m: Json): seq<Delivery>
    decreases |members|
  {
    if members == [] then []
    else
      var last := members[|members| - 1];
      Targeted(members[..|members| - 1], conns, target, m)
        + (if Addressed(conns, target, last) then [Delivery(last, m)] else [])
  }

  lemma {:induction false} TargetedRecipients(members: seq<ConnId>, conns: map<ConnId, Conn>, target: Json, m: Json, d: Delivery)
    ensures d in Targeted(members, conns, target, m)
        <==> d.msg == m && d.to in members && Addressed(conns, target, d.to)
    decreases |members|
  {
    if members != [] {
      var init := members[..|members| - 1];
      TargetedRecipients(init, conns, target, m, d);
      assert members == init + [members[|members| - 1]];
    }
  }

  /** Every delivery of `forwardToPeer`: the direct sends, or else a broadcast to every OPEN member. */
  function Forward(members: seq<ConnId>, conns: map<ConnId, Conn>, target: Json, m: Json): seq<Delivery>
  {
    var direct := Targeted(members, conns, target, m);
    if direct != [] then direct else Broadcast(members, conns, None, m)
  }

  /**
   * Forwarding reaches the addressed OPEN members when there is one, and
   * otherwise every OPEN member of the room, the sender included.
   */
  lemma ForwardRecipients(members: seq<ConnId>, conns: map<ConnId, Conn>, target: Json, m: Json, d: Delivery)
    ensures (exists c | c in members :: Addressed(conns, target, c)) ==>
      (d in Forward(members, conns, target, m) <==> d.msg == m && d.to in members && Addressed(conns, target, d.to))
    ensures (forall c | c in members :: !Addressed(conns, target, c)) ==>
      (d in Forward(members, conns, target, m) <==> d.msg == m && d.to in members && IsOpen(conns, d.to))
  {
    TargetedRecipients(members, conns, target, m, d);
    BroadcastRecipients(members, conns, None, m, d);
    if c :| c in members && Addressed(conns, target, c) {
      TargetedRecipients(members, conns, target, m, Delivery(c, m));
    } else if Targeted(members, conns, target, m) != [] {
      var e := Targeted(members, conns, target, m)[0];
      TargetedRecipients(members, conns, target, m, e);
    }
  }

  /** The loop of `forwardToPeer` (signaling-server.js:159-165), with its `found` flag. */
  method ForwardLoop(members: seq<ConnId>, conns: map<ConnId, Conn>, target: Json, m: Json)
    returns (out: seq<Delivery>, found: bool)
    ensures out == Targeted(members, conns, target, m)
    ensures found <==> out != []
  {
    out, found := [], false;
    var i := 0;
    while i < |members|
      invariant 0 <= i <= |members|
      invariant out == Targeted(members[..i], conns, target, m)
      invariant found <==> out != []
    {
      var peer := members[i];
      assert members[..i + 1][..i] == members[..i];
      if peer in conns && conns[peer].userId == target && conns[peer].open {
        out := out + [Delivery(peer, m)];
        found := true;
      }
      i := i + 1;
    }
    assert members[..i] == members;
  }

  // ---------------------------------------------------------------------
  // The existing-peers snapshot of a join

  /** Who goes into the snapshot for joiner `self`: another OPEN member with a truthy userId. */
  predicate Listed(conns: map<ConnId, Conn>, self: ConnId, c: ConnId)
  {
    c != self && IsOpen(conns, c) && Truthy(conns[c].userId)
  }

  function SnapshotMembers(members: seq<ConnId>, conns: map<ConnId, Conn>, self: ConnId): (r: seq<ConnId>)
    ensures forall i | 0 <= i < |r| :: r[i] in members && Listed(conns, self, r[i])
    decreases |members|
  {
    if members == [] then []
    else
      var last := members[|members| - 1];
      SnapshotMembers(members[..|members| - 1], conns, self) + (if Listed(conns, self, last) then [last] else [])
  }

  /** The snapshot lists exactly the listed members; the joiner is never among them. */
  lemma {:induction false} SnapshotExact(members: seq<ConnId>, conns: map<ConnId, Conn>, self: ConnId, c: ConnId)
    ensures c in SnapshotMembers(members, conns, self) <==> c in members && Listed(conns, self, c)
    ensures self !in SnapshotMembers(members, conns, self)
    decreases |members|
  {
    if members != [] {
      var init := members[..|members| - 1];
      SnapshotExact(init, conns, self, c);
      assert members == init + [members[|members| - 1]];
    }
  }

  /** The `{userId, username}` entry of one snapshot member. */
  function PeerEntry(conn: Conn): Json
  {
    JObj(map["userId" := conn.userId, "username" := Or(conn.username, Unknown)])
  }

  function Entries(ids: seq<ConnId>, conns: map<ConnId, Conn>): (r: seq<Json>)
    requires forall i | 0 <= i < |ids| :: ids[i] in conns
    ensures |r| == |ids|
    ensures forall i | 0 <= i < |ids| :: r[i] == PeerEntry(conns[ids[i]])
  {
    seq(|ids|, i requires 0 <= i < |ids| => PeerEntry(conns[ids[i]]))
  }

  /** The `existingPeers` loop of a join (signaling-server.js:47-55). */
  method SnapshotLoop(members: seq<ConnId>, conns: map<ConnId, Conn>, self: ConnId)
    returns (peers: seq<Json>)
    ensures peers == Entries(SnapshotMembers(members, conns, self), conns)
  {
    peers := [];
    ghost var ids: seq<ConnId> := [];
    var i := 0;
    while i < |members|
      invariant 0 <= i <= |members|
      invariant ids == SnapshotMembers(members[..i], conns, self)
      invariant forall k | 0 <= k < |ids| :: ids[k] in conns
      invariant peers == Entries(ids, conns)
    {
      var peer := members[i];
      assert members[..i + 1][..i] == members[..i];
      if peer != self && peer in conns && conns[peer].open && Truthy(conns[peer].userId) {
        peers := peers + [JObj(map["userId" := conns[peer].userId, "username" := Or(conns[peer].username, Unknown)])];
        ids := ids + [peer];
      }
      i := i + 1;
    }
    assert members[..i] == members;
  }

  // ---------------------------------------------------------------------
  // Messages the server builds

  function ExistingPeersMsg(peers: seq<Json>): Json
  {
    JObj(map["type" := JStr("existing-peers"), "peers" := JArr(peers)])
  }

  function PeerJoinedMsg(userId: Json, username: Json): Json
  {
    JObj(map["type" := JStr("peer-joined"), "userId" := userId, "username" := Or(username, Unknown)])
  }

  function PeerLeftMsg(userId: Json): Json
  {
    JObj(map["type" := JStr("peer-left"), "userId" := userId])
  }

  /** `{type, from, data}`: how `signal`, `broadcast-signal` and `broadcast` are relayed. */
  function RelayMsg(kind: Json, from: Json, data: Json): Json
  {
    JObj(map["type" := kind, "from" := from, "data" := data])
  }

  // ---------------------------------------------------------------------
  // The server state and its handlers

  class RoomDirectory {
    var rooms: map<Json, seq<ConnId>>
    var conns: map<ConnId, Conn>
    var outbox: seq<Delivery>

    /** Every room entry is a non-empty, duplicate-free list of known connections. */
    ghost predicate Valid()
      reads this
    {
      forall r | r in rooms ::
        rooms[r] != [] && NoDup(rooms[r]) && forall c | c in rooms[r] :: c in conns
    }

    constructor ()
      ensures Valid()
      ensures rooms == map[] && conns == map[] && outbox == []
    {
      rooms, conns, outbox := map[], map[], [];
    }

    /** The `connection` event: a fresh OPEN connection that has not joined yet. */
    method OnConnection(c: ConnId)
      requires Valid() && c !in conns
      modifies this
      ensures Valid()
      ensures conns == old(conns)[c := Conn(JUndefined, JUndefined, true, JNull)]
      ensures rooms == old(rooms) && outbox == old(outbox)
    {
      conns := conns[c := Conn(JUndefined, JUndefined, true, JNull)];
    }

    /** The transport leaves OPEN (CLOSING) before its `close` event is delivered. */
    method OnClosing(c: ConnId)
      requires Valid() && c in conns
      modifies this
      ensures Valid()
      ensures conns == old(conns)[c := old(conns)[c].(open := false)]
      ensures rooms == old(rooms) && outbox == old(outbox)
    {
      conns := conns[c := conns[c].(open := false)];
    }

    /** `broadcastToRoom(roomId, exclude, m)`; nothing at all for a room that does not exist. */
    method BroadcastToRoom(roomId: Json, exclude: Option<ConnId>, m: Json)
      modifies this
      ensures rooms == old(rooms) && conns == old(conns)
      ensures roomId !in rooms ==> outbox == old(outbox)
      ensures roomId in rooms ==> outbox == old(outbox) + Broadcast(rooms[roomId], conns, exclude, m)
    {
      if roomId in rooms {
        var sent := BroadcastLoop(rooms[roomId], conns, exclude, m);
        outbox := outbox + sent;
      }
    }

    /** `forwardToPeer(roomId, target, m)`; nothing at all for a room that does not exist. */
    method ForwardToPeer(roomId: Json, target: Json, m: Json)
      modifies this
      ensures rooms == old(rooms) && conns == old(conns)
      ensures roomId !in rooms ==> outbox == old(outbox)
      ensures roomId in rooms ==> outbox == old(outbox) + Forward(rooms[roomId], conns, target, m)
    {
      if roomId in rooms {
        var sent, found := ForwardLoop(rooms[roomId], conns, target, m);
        outbox := outbox + sent;
        if !found {
          BroadcastToRoom(roomId, None, m);
        }
      }
    }

    /** The `join` case: record the connection in its room, send the snapshot, announce the joiner. */
    method Join(c: ConnId, data: Json)
      requires Valid() && c in conns
      modifies this
      ensures Valid()
      ensures var r := Get(data, "roomId");
        && rooms == old(rooms)[r := With(if r in old(rooms) then old(rooms)[r] else [], c)]
        && c in rooms[r]
        && conns == old(conns)[c := old(conns)[c].(userId := Get(data, "userId"),
                                                  username := Or(Get(data, "username"), Unknown),
                                                  currentRoom := r)]
        && var snapshot := Entries(SnapshotMembers(rooms[r], conns, c), conns);
          outbox == old(outbox)
            + (if snapshot != [] then [Delivery(c, ExistingPeersMsg(snapshot))] else [])
            + Broadcast(rooms[r], conns, Some(c), PeerJoinedMsg(Get(data, "userId"), Get(data, "username")))
    {
      var currentRoom := Get(data, "roomId");
      var userId := Get(data, "userId");
      if currentRoom !in rooms {
        rooms := rooms[currentRoom := []];
      }
      var before := rooms[currentRoom];
      rooms := rooms[currentRoom := With(before, c)];
      conns := conns[c := conns[c].(userId := userId, username := Or(Get(data, "username"), Unknown),
                                    currentRoom := currentRoom)];
      var existingPeers := SnapshotLoop(rooms[currentRoom], conns, c);
      if |existingPeers| > 0 {
        outbox := outbox + [Delivery(c, ExistingPeersMsg(existingPeers))];
      }
      ghost var middle := outbox;
      BroadcastToRoom(currentRoom, Some(c), PeerJoinedMsg(userId, Get(data, "username")));
      assert outbox == middle + Broadcast(rooms[currentRoom], conns, Some(c), PeerJoinedMsg(userId, Get(data, "username")));
    }

    /**
     * The `message` handler. `frame` is the result of `JSON.parse`
     * (None when it throws); a parse error, a null message and an unknown
     * type are swallowed without any effect.
     */
    method OnMessage(c: ConnId, frame: Option<Json>)
      requires Valid() && c in conns
      modifies this
      ensures Valid()
      ensures (frame.None? || Nullish(frame.value) || !IsKnownType(Get(frame.value, "type")))
        ==> rooms == old(rooms) && conns == old(conns) && outbox == old(outbox)
      ensures frame.Some? && Get(frame.value, "type") != JStr("join")
        ==> rooms == old(rooms) && conns == old(conns)
      ensures frame.Some? && Get(frame.value, "type") == JStr("signal") ==>
        var data, room, from := frame.value, old(conns)[c].currentRoom, old(conns)[c].userId;
        if Truthy(Get(data, "to")) && Truthy(room) && room in rooms then
          outbox == old(outbox) + Forward(rooms[room], conns, Get(data, "to"),
                                           RelayMsg(Get(data, "signalType"), from, Get(data, "data")))
        else outbox == old(outbox)
      ensures frame.Some? && Get(frame.value, "type") == JStr("broadcast-signal") ==>
        var data, room, from := frame.value, old(conns)[c].currentRoom, old(conns)[c].userId;
        if Truthy(room) && room in rooms then
          outbox == old(outbox) + Broadcast(rooms[room], conns, Some(c),
                                             RelayMsg(Get(data, "signalType"), from, Get(data, "data")))
        else outbox == old(outbox)
      ensures frame.Some? && Get(frame.value, "type") == JStr("broadcast") ==>
        var data, room, from := frame.value, old(conns)[c].currentRoom, old(conns)[c].userId;
        if Truthy(room) && room in rooms then
          outbox == old(outbox) + Broadcast(rooms[room], conns, Some(c),
                                             RelayMsg(Get(data, "messageType"), from, Get(data, "data")))
        else outbox == old(outbox)
      ensures frame.Some? && Get(frame.value, "type") == JStr("join") ==>
        var data := frame.value;
        var r := Get(data, "roomId");
        && rooms == old(rooms)[r := With(if r in old(rooms) then old(rooms)[r] else [], c)]
        && c in rooms[r]
        && conns == old(conns)[c := old(conns)[c].(userId := Get(data, "userId"),
                                                  username := Or(Get(data, "username"), Unknown),
                                                  currentRoom := r)]
        && var snapshot := Entries(SnapshotMembers(rooms[r], conns, c), conns);
          outbox == old(outbox)
            + (if snapshot != [] then [Delivery(c, ExistingPeersMsg(snapshot))] else [])
            + Broadcast(rooms[r], conns, Some(c), PeerJoinedMsg(Get(data, "userId"), Get(data, "username")))
    {
      if frame.None? {
        return;
      }
      var data := frame.value;
      if Nullish(data) {
        return;
      }
      var kind := Get(data, "type");
      var currentRoom, userId := conns[c].currentRoom, conns[c].userId;
      if kind == JStr("join") {
        Join(c, data);
      } else if kind == JStr("signal") {
        if Truthy(Get(data, "to")) && Truthy(currentRoom) {
          ForwardToPeer(currentRoom, Get(data, "to"), RelayMsg(Get(data, "signalType"), userId, Get(data, "data")));
        }
      } else if kind == JStr("broadcast-signal") {
        if Truthy(currentRoom) {
          BroadcastToRoom(currentRoom, Some(c), RelayMsg(Get(data, "signalType"), userId, Get(data, "data")));
        }
      } else if kind == JStr("broadcast") {
        if Truthy(currentRoom) {
          BroadcastToRoom(currentRoom, Some(c), RelayMsg(Get(data, "messageType"), userId, Get(data, "data")));
        }
      }
    }

    /**
     * The `close` event: the connection is no longer OPEN; if it had
     * joined a room that still exists it leaves it, `peer-left` goes to
     * the remaining OPEN members, and an emptied room is deleted.
     */
    method OnClose(c: ConnId)
      requires Valid() && c in conns
      modifies this
      ensures Valid()
      ensures conns == old(conns)[c := old(conns)[c].(open := false)]
      ensures var room := old(conns)[c].currentRoom;
        if Truthy(room) && room in old(rooms) then
          var rest := Without(old(rooms)[room], c);
          && outbox == old(outbox) + Broadcast(rest, conns, None, PeerLeftMsg(old(conns)[c].userId))
          && (rest == [] ==> rooms == old(rooms) - {room})
          && (rest != [] ==> rooms == old(rooms)[room := rest])
        else rooms == old(rooms) && outbox == old(outbox)
    {
      conns := conns[c := conns[c].(open := false)];
      var currentRoom := conns[c].currentRoom;
      if Truthy(currentRoom) && currentRoom in rooms {
        rooms := rooms[currentRoom := Without(rooms[currentRoom], c)];
        BroadcastToRoom(currentRoom, None, PeerLeftMsg(conns[c].userId));
        if |rooms[currentRoom]| == 0 {
          rooms := rooms - {currentRoom};
        }
      }
    }
  }

  /** The message types the handler acts on; any other type falls to the `default` arm. */
  predicate IsKnownType(t: Json)
  {
    t == JStr("join") || t == JStr("signal") || t == JStr("broadcast-signal") || t == JStr("broadcast")
  }
}
