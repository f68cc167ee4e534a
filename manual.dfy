/**
 * The copy-paste signaling helper (`SignalingManager`): a signal envelope
 * generated for the user to copy, its validation when pasted on the other
 * side, and a same-origin BroadcastChannel used when one is available.
 */
module Manual {
  import opened Json

  /**
   * `JSON.parse(JSON.stringify(v))` for a value that is not itself
   * `undefined`: object members holding `undefined` disappear and
   * `undefined` array items come back as `null`.
   */
  function Normalize(v: Json): (r: Json)
    ensures Truthy(r) == Truthy(v)
    ensures r.JUndefined? <==> v.JUndefined?
    ensures !v.JArr? && !v.JObj? ==> r == v
    decreases v
  {
    match v
    case JArr(items) =>
      JArr(seq(|items|, i requires 0 <= i < |items| =>
        if items[i] == JUndefined then JNull else Normalize(items[i])))
    case JObj(fields) =>
      JObj(map k | k in fields && fields[k] != JUndefined :: Normalize(fields[k]))
    case _ => v
  }

  /** Reading a member after the round trip is the round trip of the member read before it. */
  lemma GetNormalize(v: Json, key: string)
    requires v.JObj?
    ensures Get(Normalize(v), key) == Normalize(Get(v, key))
  {
  }

  /** A second round trip through JSON text changes nothing. */
  lemma {:induction false} NormalizeIdempotent(v: Json)
    ensures Normalize(Normalize(v)) == Normalize(v)
    decreases v
  {
    match v
    case JArr(items) =>
      var once := Normalize(v).items;
      forall i | 0 <= i < |items|
        ensures Normalize(Normalize(v)).items[i] == once[i]
      {
        if items[i] != JUndefined {
          NormalizeIdempotent(items[i]);
        }
      }
    case JObj(fields) =>
      var once := Normalize(v).fields;
      forall k | k in fields && fields[k] != JUndefined
        ensures Normalize(once[k]) == once[k]
      {
        NormalizeIdempotent(fields[k]);
      }
      assert Normalize(Normalize(v)).fields == once;
    case _ =>
  }

  /** One call of the `onSignal(peerId, type, data)` callback. */
  datatype Call = Call(peerId: Json, kind: Json, data: Json)

  /**
   * The validity check of `processManualSignal` on the parsed value: the
   * callback is due exactly when `type` and `data` are both truthy. A
   * `null` value throws on the property read and is rejected the same way.
   */
  function ManualCall(parsed: Json): Option<Call>
  {
    var kind, data := Get(parsed, "type"), Get(parsed, "data");
    if Truthy(kind) && Truthy(data) then Some(Call(Or(Get(parsed, "peerId"), JStr("manual")), kind, data))
    else None
  }

  /** The object `generateSignalForCopy` serialises; `now` is `Date.now()`. */
  function SignalForCopy(roomId: Json, userId: Json, peerId: Json, kind: Json, data: Json, now: int): Json
  {
    JObj(map["roomId" := roomId, "peerId" := Or(peerId, userId), "type" := kind,
             "data" := data, "timestamp" := JNum(now)])
  }

  /**
   * Pasting a generated signal on the other side: it is accepted exactly
   * when `type` and `data` are truthy, and then reports the sender as
   * `peerId || userId` (or 'manual' when both are falsy) with the
   * descriptor as it survived the JSON text.
   */
  lemma CopyRoundTrip(roomId: Json, userId: Json, peerId: Json, kind: Json, data: Json, now: int)
    ensures var call := ManualCall(Normalize(SignalForCopy(roomId, userId, peerId, kind, data, now)));
      && (call.Some? <==> Truthy(kind) && Truthy(data))
      && (call.Some? ==> call.value == Call(Or(Normalize(Or(peerId, userId)), JStr("manual")),
                                            Normalize(kind), Normalize(data)))
  {
    var sent := SignalForCopy(roomId, userId, peerId, kind, data, now);
    GetNormalize(sent, "type");
    GetNormalize(sent, "data");
    GetNormalize(sent, "peerId");
  }

  /** With string ids and a string type, the pasted signal names the generating side exactly. */
  lemma CopyRoundTripStrings(roomId: Json, userId: string, peerId: string, kind: string, data: Json, now: int)
    requires kind != "" && Truthy(data)
    ensures var id := Or(JStr(peerId), JStr(userId));
      ManualCall(Normalize(SignalForCopy(roomId, JStr(userId), JStr(peerId), JStr(kind), data, now)))
        == Some(Call(if Truthy(id) then id else JStr("manual"), JStr(kind), Normalize(data)))
  {
    CopyRoundTrip(roomId, JStr(userId), JStr(peerId), JStr(kind), data, now);
  }

  // ---------------------------------------------------------------------
  // The BroadcastChannel messages

  predicate IsChannelSignal(kind: Json)
  {
    kind == JStr("join") || kind == JStr("offer") || kind == JStr("answer") || kind == JStr("ice-candidate")
  }

  /** The presence announcement `tryBroadcastChannel` posts. */
  function JoinAnnouncement(userId: Json, now: int): Json
  {
    JObj(map["type" := JStr("join"), "from" := userId, "data" := JObj(map["timestamp" := JNum(now)])])
  }

  /** The message `sendSignal` posts. */
  function SignalPost(userId: Json, peerId: Json, kind: Json, data: Json): Json
  {
    JObj(map["type" := kind, "from" := userId, "to" := peerId, "data" := data])
  }

  /**
   * The channel's `onmessage` filter: a message from the listening user
   * itself is dropped, and of the rest only the four signaling types reach
   * the callback (the `to` field is not looked at).
   */
  function ChannelFilter(self: Json, message: Json): (r: Option<Call>)
    ensures r.Some? ==> Get(message, "from") != self && IsChannelSignal(r.value.kind)
  {
    if Nullish(message) then None
    else
      var kind, from := Get(message, "type"), Get(message, "from");
      if from == self then None
      else if IsChannelSignal(kind) then Some(Call(from, kind, Get(message, "data")))
      else None
  }

  /** What one manager posts, another manager with a different id receives (whoever it is addressed to) ... */
  lemma PostReachesOthers(sender: Json, listener: Json, peerId: Json, kind: Json, data: Json, now: int)
    requires sender != listener
    ensures ChannelFilter(listener, JoinAnnouncement(sender, now))
      == Some(Call(sender, JStr("join"), JObj(map["timestamp" := JNum(now)])))
    ensures IsChannelSignal(kind) ==>
      ChannelFilter(listener, SignalPost(sender, peerId, kind, data)) == Some(Call(sender, kind, data))
    ensures !IsChannelSignal(kind) ==> ChannelFilter(listener, SignalPost(sender, peerId, kind, data)).None?
  {
  }

  /** ... and nothing a manager posts comes back to itself. */
  lemma OwnPostsDropped(self: Json, peerId: Json, kind: Json, data: Json, now: int)
    ensures ChannelFilter(self, JoinAnnouncement(self, now)).None?
    ensures ChannelFilter(self, SignalPost(self, peerId, kind, data)).None?
  {
  }

  // ---------------------------------------------------------------------
  // The manager object

  /** An open channel, with the user id and callback its `onmessage` closure captured. */
  datatype Channel = Channel(name: string, self: Json, notify: bool)

  datatype Post = Post(channel: string, message: Json)

  class SignalingManager {
    var roomId: Json
    var userId: Json
    var pendingOffers: map<Json, Json>
    var hasCallback: bool
    var channel: Option<Channel>
    var posted: seq<Post>
    var calls: seq<Call>

    constructor ()
      ensures roomId == JNull && userId == JNull && pendingOffers == map[] && !hasCallback
      ensures channel.None? && posted == [] && calls == []
    {
      roomId, userId, pendingOffers, hasCallback := JNull, JNull, map[], false;
      channel, posted, calls := None, [], [];
    }

    /**
     * `initialize` and `tryBroadcastChannel`. Where BroadcastChannel is not
     * supported the constructor throws and the previous channel, if any, stays.
     */
    method Initialize(room: Json, user: Json, onSignal: bool, channelSupported: bool, now: int)
      modifies this
      ensures roomId == room && userId == user && hasCallback == onSignal
      ensures pendingOffers == old(pendingOffers) && calls == old(calls)
      ensures !channelSupported ==> channel == old(channel) && posted == old(posted)
      ensures channelSupported ==>
        var name := "wisphergrid_" + ToStr(room);
        && channel == Some(Channel(name, user, onSignal))
        && posted == old(posted) + [Post(name, JoinAnnouncement(user, now))]
    {
      roomId, userId, hasCallback := room, user, onSignal;
      if channelSupported {
        var name := "wisphergrid_" + ToStr(room);
        channel := Some(Channel(name, user, onSignal));
        posted := posted + [Post(name, JoinAnnouncement(user, now))];
      }
    }

    /** A message delivered on the open channel. */
    method OnChannelMessage(message: Json)
      requires channel.Some?
      modifies this
      ensures var c := ChannelFilter(old(channel).value.self, message);
        calls == old(calls) + (if c.Some? && old(channel).value.notify then [c.value] else [])
      ensures roomId == old(roomId) && userId == old(userId) && channel == old(channel)
      ensures posted == old(posted) && pendingOffers == old(pendingOffers) && hasCallback == old(hasCallback)
    {
      var c := ChannelFilter(channel.value.self, message);
      if c.Some? && channel.value.notify {
        calls := calls + [c.value];
      }
    }

    /** `sendSignal`: posts on the channel and reports whether one was there. */
    method SendSignal(peerId: Json, kind: Json, data: Json) returns (ok: bool)
      modifies this
      ensures ok <==> channel.Some?
      ensures posted == old(posted) + (if ok then [Post(channel.value.name, SignalPost(userId, peerId, kind, data))] else [])
      ensures roomId == old(roomId) && userId == old(userId) && channel == old(channel)
      ensures calls == old(calls) && pendingOffers == old(pendingOffers) && hasCallback == old(hasCallback)
    {
      if channel.Some? {
        posted := posted + [Post(channel.value.name, SignalPost(userId, peerId, kind, data))];
        return true;
      }
      return false;
    }

    /**
     * `processManualSignal`; `parsed` is the result of `JSON.parse`, None
     * when the pasted text is not JSON. The callback runs at most once.
     */
    method ProcessManualSignal(parsed: Option<Json>) returns (ok: bool)
      modifies this
      ensures ok <==> parsed.Some? && ManualCall(parsed.value).Some?
      ensures calls == old(calls) + (if ok && hasCallback then [ManualCall(parsed.value).value] else [])
      ensures roomId == old(roomId) && userId == old(userId) && channel == old(channel)
      ensures posted == old(posted) && pendingOffers == old(pendingOffers) && hasCallback == old(hasCallback)
    {
      if parsed.None? {
        return false;
      }
      var message := parsed.value;
      if Nullish(message) {
        return false;
      }
      var kind, data := Get(message, "type"), Get(message, "data");
      if Truthy(kind) && Truthy(data) {
        if hasCallback {
          calls := calls + [Call(Or(Get(message, "peerId"), JStr("manual")), kind, data)];
        }
        return true;
      }
      return false;
    }

    /** `cleanup`: the channel is closed and dropped, and no pending offer is kept. */
    method Cleanup()
      modifies this
      ensures channel.None? && pendingOffers == map[]
      ensures roomId == old(roomId) && userId == old(userId) && hasCallback == old(hasCallback)
      ensures posted == old(posted) && calls == old(calls)
    {
      if channel.Some? {
        channel := None;
      }
      pendingOffers := map[];
    }
  }
}
