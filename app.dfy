/**
 * The application object (`WispherGrid`): the map of connected peers, the
 * choice of which side of a pair starts the WebRTC negotiation, and the
 * translation of room events into calls on the Link Provider (the WebRTC
 * layer), which are recorded rather than performed. Each handler runs as
 * one step; what an awaited provider call returns is a parameter.
 */
module App {
  import opened Json
  import StringOrder
  import Rooms

  /** A call on the Link Provider. */
  datatype LinkCall =
    | CreateConnection(peerId: Json, initiator: bool)
    | CreateOffer(peerId: Json)
    | CreateAnswer(peerId: Json, offer: Json)
    | SetRemoteDescription(peerId: Json, description: Json)
    | AddIceCandidate(peerId: Json, candidate: Json)
    | CloseConnection(peerId: Json)
    | CloseAll
    | BroadcastData(message: Json)

  /**
   * The orchestrator's view of the mesh: `connectedPeers` (peer id to
   * username), the peers the provider holds a connection for, and the
   * provider calls made so far.
   */
  datatype Mesh = Mesh(connected: map<Json, Json>, links: set<Json>, calls: seq<LinkCall>)

  const Unknown := JStr("Unknown")

  /** `this.room.userId.localeCompare(peerId) > 0`: the own id sorts after the peer's. */
  predicate Initiates(self: string, peerId: Json)
  {
    StringOrder.Less(ToStr(peerId), self)
  }

  /** Of two distinct string ids, exactly one side starts the negotiation. */
  lemma ExactlyOneInitiator(a: string, b: string)
    requires a != b
    ensures Initiates(a, JStr(b)) != Initiates(b, JStr(a))
  {
    StringOrder.Trichotomy(a, b);
  }

  // ---------------------------------------------------------------------
  // handlePeerJoin

  /** `handlePeerJoin` returns at once for an already-connected peer or for itself. */
  predicate JoinIgnored(m: Mesh, self: Json, peerId: Json)
  {
    peerId in m.connected || peerId == self
  }

  /**
   * The effect of `handlePeerJoin` on the mesh. Reading `data.username`
   * throws for a null `data` before anything changes; a non-string own id
   * throws at `localeCompare`, after the peer has been recorded.
   */
  function PeerJoin(m: Mesh, self: Json, peerId: Json, data: Json): (r: Mesh)
    ensures (JoinIgnored(m, self, peerId) || Nullish(data)) ==> r == m
    ensures !JoinIgnored(m, self, peerId) && !Nullish(data) ==>
      && r.connected == m.connected[peerId := Or(Get(data, "username"), Unknown)]
      && (!self.JStr? ==> r.links == m.links && r.calls == m.calls)
      && (self.JStr? ==>
            && r.links == m.links + {peerId}
            && r.calls == m.calls + [CreateConnection(peerId, Initiates(self.s, peerId))]
                 + (if Initiates(self.s, peerId) then [CreateOffer(peerId)] else []))
  {
    if JoinIgnored(m, self, peerId) || Nullish(data) then m
    else
      var connected := m.connected[peerId := Or(Get(data, "username"), Unknown)];
      if !self.JStr? then m.(connected := connected)
      else
        var initiator := Initiates(self.s, peerId);
        Mesh(connected, m.links + {peerId},
             m.calls + [CreateConnection(peerId, initiator)] + (if initiator then [CreateOffer(peerId)] else []))
  }

  /** Whether `handlePeerJoin` goes on to create an offer and send it to the peer. */
  predicate OfferDue(m: Mesh, self: Json, peerId: Json, data: Json)
  {
    !JoinIgnored(m, self, peerId) && !Nullish(data) && self.JStr? && Initiates(self.s, peerId)
  }

  /** Once a peer has been recorded, a repeated join adds no entry and no offer. */
  lemma JoinOnce(m: Mesh, self: Json, peerId: Json, data: Json, again: Json)
    requires peerId in PeerJoin(m, self, peerId, data).connected
    ensures PeerJoin(PeerJoin(m, self, peerId, data), self, peerId, again) == PeerJoin(m, self, peerId, data)
    ensures !OfferDue(PeerJoin(m, self, peerId, data), self, peerId, again)
  {
  }

  /**
   * When two strangers with distinct string ids learn of each other,
   * exactly one of them sends the offer.
   */
  lemma OneOfferPerPair(ma: Mesh, mb: Mesh, a: string, b: string, dataA: Json, dataB: Json)
    requires a != b
    requires JStr(b) !in ma.connected && JStr(a) !in mb.connected
    requires !Nullish(dataA) && !Nullish(dataB)
    ensures OfferDue(ma, JStr(a), JStr(b), dataA) != OfferDue(mb, JStr(b), JStr(a), dataB)
  {
    ExactlyOneInitiator(a, b);
  }

  // ---------------------------------------------------------------------
  // handlePeerLeave and the connection-state handler

  /** `handlePeerLeave`: only a known peer is closed and forgotten. */
  function PeerLeave(m: Mesh, peerId: Json): (r: Mesh)
    ensures peerId !in m.connected ==> r == m
    ensures peerId in m.connected ==>
      && r.connected == m.connected - {peerId}
      && r.links == m.links - {peerId}
      && r.calls == m.calls + [CloseConnection(peerId)]
    ensures forall p | p in r.connected :: p in m.connected && r.connected[p] == m.connected[p]
  {
    if peerId in m.connected then Mesh(m.connected - {peerId}, m.links - {peerId}, m.calls + [CloseConnection(peerId)])
    else m
  }

  predicate Lost(state: Json)
  {
    state == JStr("disconnected") || state == JStr("failed")
  }

  /**
   * `onConnectionStateChange` followed by the provider's own reaction: on
   * `disconnected` or `failed` the peer is dropped at once (there is no
   * grace period), then the provider closes its connection.
   */
  function StateChange(m: Mesh, peerId: Json, state: Json): (r: Mesh)
    ensures !Lost(state) ==> r == m
    ensures Lost(state) ==>
      && peerId !in r.connected && peerId !in r.links
      && r.connected == m.connected - {peerId}
      && r.calls == m.calls + [CloseConnection(peerId)]
  {
    if Lost(state) then Mesh(m.connected - {peerId}, m.links - {peerId}, m.calls + [CloseConnection(peerId)])
    else m
  }

  /** A connection lost and the peer then reported as leaving: the second step finds nothing to do. */
  lemma LostThenLeave(m: Mesh, peerId: Json, state: Json)
    requires Lost(state)
    ensures PeerLeave(StateChange(m, peerId, state), peerId) == StateChange(m, peerId, state)
  {
  }

  // ---------------------------------------------------------------------
  // handleSignaling

  /**
   * The provider calls of `handleSignaling`: an offer gets a responder
   * connection when there is none and is answered at once, an answer is
   * applied whatever state the connection is in, and a candidate is
   * handed on. Other types are ignored.
   */
  function Signaling(m: Mesh, peerId: Json, kind: Json, data: Json): (r: Mesh)
    ensures r.connected == m.connected
    ensures kind == JStr("offer") ==>
      && r.links == m.links + {peerId}
      && r.calls == m.calls + (if peerId in m.links then [] else [CreateConnection(peerId, false)])
           + [CreateAnswer(peerId, data)]
    ensures kind == JStr("answer") ==> r.links == m.links && r.calls == m.calls + [SetRemoteDescription(peerId, data)]
    ensures kind == JStr("ice-candidate") ==> r.links == m.links && r.calls == m.calls + [AddIceCandidate(peerId, data)]
    ensures !Rooms.IsSignalType(kind) ==> r == m
  {
    if kind == JStr("offer") then
      var created := if peerId in m.links then [] else [CreateConnection(peerId, false)];
      Mesh(m.connected, m.links + {peerId}, m.calls + created + [CreateAnswer(peerId, data)])
    else if kind == JStr("answer") then m.(calls := m.calls + [SetRemoteDescription(peerId, data)])
    else if kind == JStr("ice-candidate") then m.(calls := m.calls + [AddIceCandidate(peerId, data)])
    else m
  }

  // ---------------------------------------------------------------------
  // The manual connection info and the file size check

  /** `processManualSignal`: a join is attempted only for the same room and another user. */
  predicate ManualJoinDue(parsed: Option<Json>, roomId: Json, userId: Json)
  {
    parsed.Some? && !Nullish(parsed.value)
      && Get(parsed.value, "roomId") == roomId && Get(parsed.value, "userId") != userId
  }

  const MaxFileSize := 100 * 1024 * 1024

  /** The message `handleFileSelected` broadcasts once the file has been read. */
  function FileMessage(username: Json, fileName: Json, size: int, fileData: Json, now: int): Json
  {
    JObj(map["type" := JStr("file"), "username" := username, "fileName" := fileName,
             "fileSize" := JNum(size), "fileData" := fileData, "timestamp" := JNum(now)])
  }

  // ---------------------------------------------------------------------
  // The application object

  class WispherGrid {
    const room: Rooms.RoomManager
    var username: Json
    var connectedPeers: map<Json, Json>
    var links: set<Json>
    var linkCalls: seq<LinkCall>

    function View(): Mesh
      reads this
    {
      Mesh(connectedPeers, links, linkCalls)
    }

    /** What `room.sendSignal(peerId, kind, data)` hands to the active transport. */
    function Sent(peerId: Json, kind: string, data: Json): seq<Rooms.Event>
      reads room
    {
      var r := Rooms.SignalRequest(room.useWebSocket && room.hasWsSignaling, room.hasChannel,
                                   room.userId, peerId, kind, data);
      if r.Some? then [r.value] else []
    }

    constructor ()
      ensures fresh(room) && room.peers == {} && room.events == [] && room.userId == JNull
      ensures username == JStr("") && connectedPeers == map[] && links == {} && linkCalls == []
    {
      room := new Rooms.RoomManager();
      username := JStr("");
      connectedPeers, links, linkCalls := map[], {}, [];
    }

    /**
     * `handlePeerJoin(peerId, data)`; `offer` is what the provider's
     * `createOffer` yields (None when it throws, which is only logged).
     */
    method HandlePeerJoin(peerId: Json, data: Json, offer: Option<Json>)
      modifies this, room`events
      ensures View() == PeerJoin(old(View()), room.userId, peerId, data)
      ensures room.events == old(room.events)
        + (if OfferDue(old(View()), room.userId, peerId, data) && offer.Some? then Sent(peerId, "offer", offer.value) else [])
      ensures username == old(username)
    {
      if peerId in connectedPeers || peerId == room.userId {
        return;
      }
      if Nullish(data) {
        return;
      }
      connectedPeers := connectedPeers[peerId := Or(Get(data, "username"), Unknown)];
      if !room.userId.JStr? {
        return;
      }
      var isInitiator := Initiates(room.userId.s, peerId);
      links := links + {peerId};
      linkCalls := linkCalls + [CreateConnection(peerId, isInitiator)];
      if isInitiator {
        linkCalls := linkCalls + [CreateOffer(peerId)];
        if offer.Some? {
          room.SendSignal(peerId, "offer", offer.value);
        }
      }
    }

    /** `handlePeerLeave(peerId)`. */
    method HandlePeerLeave(peerId: Json)
      modifies this
      ensures View() == PeerLeave(old(View()), peerId)
      ensures username == old(username)
    {
      if peerId in connectedPeers {
        linkCalls := linkCalls + [CloseConnection(peerId)];
        links := links - {peerId};
        connectedPeers := connectedPeers - {peerId};
      }
    }

    /**
     * `handleSignaling(peerId, type, data)`; `answer` is what the
     * provider's `createAnswer` yields (None when it throws).
     */
    method HandleSignaling(peerId: Json, kind: Json, data: Json, answer: Option<Json>)
      modifies this, room`events
      ensures View() == Signaling(old(View()), peerId, kind, data)
      ensures room.events == old(room.events)
        + (if kind == JStr("offer") && answer.Some? then Sent(peerId, "answer", answer.value) else [])
      ensures username == old(username)
    {
      if kind == JStr("offer") {
        if peerId !in links {
          linkCalls := linkCalls + [CreateConnection(peerId, false)];
          links := links + {peerId};
        }
        linkCalls := linkCalls + [CreateAnswer(peerId, data)];
        if answer.Some? {
          room.SendSignal(peerId, "answer", answer.value);
        }
      } else if kind == JStr("answer") {
        linkCalls := linkCalls + [SetRemoteDescription(peerId, data)];
      } else if kind == JStr("ice-candidate") {
        linkCalls := linkCalls + [AddIceCandidate(peerId, data)];
      }
    }

    /** The provider reports a new connection state for `peerId`. */
    method OnConnectionStateChange(peerId: Json, state: Json)
      modifies this
      ensures View() == StateChange(old(View()), peerId, state)
      ensures username == old(username)
    {
      if Lost(state) {
        if peerId in connectedPeers {
          connectedPeers := connectedPeers - {peerId};
        }
        linkCalls := linkCalls + [CloseConnection(peerId)];
        links := links - {peerId};
      }
    }

    /** The provider found an ICE candidate; `null` marks the end of gathering and is not sent. */
    method OnIceCandidate(peerId: Json, candidate: Json)
      modifies room`events
      ensures room.events == old(room.events)
        + (if Truthy(candidate) then Sent(peerId, "ice-candidate", candidate) else [])
    {
      if Truthy(candidate) {
        room.SendSignal(peerId, "ice-candidate", candidate);
      }
    }

    /**
     * `processManualSignal`; `parsed` is the result of `JSON.parse` (None
     * when the pasted text is not JSON), `offer` as for `HandlePeerJoin`.
     */
    method ProcessManualSignal(parsed: Option<Json>, offer: Option<Json>)
      modifies this, room`events
      ensures !ManualJoinDue(parsed, room.roomId, room.userId) ==>
        View() == old(View()) && room.events == old(room.events)
      ensures ManualJoinDue(parsed, room.roomId, room.userId) ==>
        var peerId := Get(parsed.value, "userId");
        var data := JObj(map["username" := Get(parsed.value, "username")]);
        && View() == PeerJoin(old(View()), room.userId, peerId, data)
        && room.events == old(room.events)
             + (if OfferDue(old(View()), room.userId, peerId, data) && offer.Some?
                then Sent(peerId, "offer", offer.value) else [])
      ensures username == old(username)
    {
      if parsed.None? || Nullish(parsed.value) {
        return;
      }
      var info := parsed.value;
      if Get(info, "roomId") == room.roomId && Get(info, "userId") != room.userId {
        HandlePeerJoin(Get(info, "userId"), JObj(map["username" := Get(info, "username")]), offer);
      }
    }

    /** `leaveRoom`: every connection is closed and every peer forgotten, here and in the room. */
    method LeaveRoom()
      modifies this, room
      ensures connectedPeers == map[] && links == {}
      ensures linkCalls == old(linkCalls) + [CloseAll]
      ensures room.roomId == JNull && room.userId == JNull && room.username == JNull && room.peers == {}
      ensures room.events == old(room.events)
      ensures room.useWebSocket == old(room.useWebSocket) && room.hasWsSignaling == old(room.hasWsSignaling)
      ensures room.hasChannel == old(room.hasChannel) && room.channelName == old(room.channelName)
      ensures username == old(username)
    {
      linkCalls := linkCalls + [CloseAll];
      links := {};
      room.LeaveRoom();
      connectedPeers := map[];
    }

    /**
     * `handleFileSelected`: a file over 100 MiB is refused before it is
     * read; otherwise, once it has been read (`fileData`, None when
     * reading fails), it goes to every peer.
     */
    method HandleFileSelected(fileName: Json, size: int, fileData: Option<Json>, now: int) returns (sent: bool)
      modifies this
      ensures sent <==> size <= MaxFileSize && fileData.Some?
      ensures linkCalls == old(linkCalls)
        + (if sent then [BroadcastData(FileMessage(username, fileName, size, fileData.value, now))] else [])
      ensures connectedPeers == old(connectedPeers) && links == old(links) && username == old(username)
    {
      if size > MaxFileSize {
        return false;
      }
      if fileData.None? {
        return false;
      }
      linkCalls := linkCalls + [BroadcastData(FileMessage(username, fileName, size, fileData.value, now))];
      return true;
    }
  }
}
