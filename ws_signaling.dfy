/**
 * The client's WebSocket transport: the URL guard of `connect`, the
 * reconnect policy (an attempt counter with a ceiling of 5 and an
 * exponential delay capped at 10 s), the `from`/`roomId` stamping of
 * `send`, the self-filter of incoming messages, and `disconnect`.
 *
 * Sockets are numbered as they are created; their events (open, message,
 * close) and the firing of a reconnect timer are methods the environment
 * calls. Whether the `WebSocket` constructor accepts the URL is an input.
 */
module WsSignaling {
  import opened Json

  const MaxReconnectAttempts: nat := 5

  function Pow2(n: nat): (r: nat)
    ensures r >= 1
  {
    if n == 0 then 1 else 2 * Pow2(n - 1)
  }

  function Min(a: nat, b: nat): nat
  {
    if a <= b then a else b
  }

  /** `Math.min(1000 * Math.pow(2, n), 10000)`. */
  function ReconnectDelay(n: nat): nat
  {
    Min(1000 * Pow2(n), 10000)
  }

  /** The delays of the first, second, ... fifth reconnect after an open. */
  const BackoffSchedule: seq<nat> := [2000, 4000, 8000, 10000, 10000]

  lemma {:induction false} Pow2AtLeast(n: nat)
    requires n >= 4
    ensures Pow2(n) >= 16
  {
    if n > 4 {
      Pow2AtLeast(n - 1);
    }
  }

  /**
   * Attempt n (counted after the increment) waits the n-th entry of the
   * schedule, which starts at 2000 ms; from the fourth attempt on, and for
   * any n at all, the delay is at most 10000 ms.
   */
  lemma DelaySchedule(n: nat)
    ensures 1 <= n <= |BackoffSchedule| ==> ReconnectDelay(n) == BackoffSchedule[n - 1]
    ensures n >= 4 ==> ReconnectDelay(n) == 10000
    ensures ReconnectDelay(n) <= 10000
  {
    if n >= 4 {
      Pow2AtLeast(n);
    } else if n >= 1 {
      assert Pow2(1) == 2 && Pow2(2) == 4 && Pow2(3) == 8;
    }
  }

  /** `!this.wsUrl || this.wsUrl.includes('undefined')`. */
  predicate UrlRejected(url: string)
  {
    url == "" || Contains(url, "undefined")
  }

  lemma {:induction false} ContainsInside(pre: string, sub: string, post: string)
    ensures Contains(pre + sub + post, sub)
    decreases |pre|
  {
    var s := pre + sub + post;
    if pre == [] {
      assert s[..|sub|] == sub;
    } else {
      assert s[1..] == pre[1..] + sub + post;
      ContainsInside(pre[1..], sub, post);
    }
  }

  /** A URL with `undefined` anywhere in it is refused. */
  lemma UndefinedUrlRejected(pre: string, post: string)
    ensures UrlRejected(pre + "undefined" + post)
  {
    ContainsInside(pre, "undefined", post);
  }

  /** `{...message, from, roomId}`: the stored identity overwrites whatever the caller put there. */
  function Stamped(message: map<string, Json>, from: Json, roomId: Json): (r: Json)
    ensures Get(r, "from") == from && Get(r, "roomId") == roomId
    ensures forall k | k in message && k != "from" && k != "roomId" :: Get(r, k) == message[k]
    ensures forall k | k !in message && k != "from" && k != "roomId" :: Get(r, k) == JUndefined
  {
    JObj(message["from" := from]["roomId" := roomId])
  }

  datatype ReadyState = Connecting | Open | Closing | Closed

  /** A socket, with the `connect` arguments its `onopen` handler captured. */
  datatype Socket = Socket(id: nat, state: ReadyState, roomId: Json, userId: Json)

  class WebSocketSignaling {
    var wsUrl: string
    var ws: Option<Socket>
    var roomId: Json
    var userId: Json
    var hasCallback: bool
    var reconnectAttempts: nat
    var created: nat             // sockets created so far; the next one gets this id
    var pendingReconnects: nat   // reconnect timers scheduled and not yet fired
    var sent: seq<Json>          // frames written to a socket
    var delivered: seq<Json>     // messages handed to the callback
    var delays: seq<nat>         // the delay of every reconnect scheduled so far
    ghost var lastOpen: nat      // |delays| at the last successful open

    /**
     * The counter never passes the ceiling, and it is exactly the number
     * of reconnects scheduled since the last successful open, whose delays
     * follow the backoff schedule.
     */
    ghost predicate Valid()
      reads this
    {
      && reconnectAttempts <= MaxReconnectAttempts
      && lastOpen <= |delays|
      && |delays| - lastOpen == reconnectAttempts
      && delays[lastOpen..] == BackoffSchedule[..reconnectAttempts]
      && (ws.Some? ==> ws.value.id < created)
    }

    /** `new WebSocketSignaling(url)`: an empty or null URL falls back to the default one. */
    constructor (url: Json, defaultUrl: string)
      ensures Valid()
      ensures wsUrl == (if Truthy(url) && url.JStr? then url.s else defaultUrl)
      ensures ws == None && roomId == JNull && userId == JNull && !hasCallback
      ensures reconnectAttempts == 0 && sent == [] && delivered == [] && delays == []
    {
      wsUrl := if Truthy(url) && url.JStr? then url.s else defaultUrl;
      ws := None;
      roomId, userId := JNull, JNull;
      hasCallback := false;
      reconnectAttempts, created, pendingReconnects := 0, 0, 0;
      sent, delivered, delays := [], [], [];
      lastOpen := 0;
    }

    /**
     * `connect`: stores the room, the identity and whether a callback was given;
     * refuses a missing URL or one containing `undefined`, and otherwise creates a
     * socket unless the constructor throws (`accepted` false).
     */
    method Connect(room: Json, user: Json, onMessage: bool, accepted: bool) returns (ok: bool)
      requires Valid()
      modifies this
      ensures Valid()
      ensures roomId == room && userId == user && hasCallback == onMessage
      ensures ok <==> !UrlRejected(wsUrl) && accepted
      ensures ok ==> ws == Some(Socket(old(created), Connecting, room, user)) && created == old(created) + 1
      ensures !ok ==> ws == old(ws) && created == old(created)
      ensures reconnectAttempts == old(reconnectAttempts) && delays == old(delays) && lastOpen == old(lastOpen)
      ensures sent == old(sent) && delivered == old(delivered) && wsUrl == old(wsUrl)
      ensures pendingReconnects == old(pendingReconnects)
    {
      roomId, userId := room, user;
      hasCallback := onMessage;
      if wsUrl == "" || Contains(wsUrl, "undefined") {
        return false;
      }
      if !accepted {
        return false;
      }
      ws := Some(Socket(created, Connecting, room, user));
      created := created + 1;
      ok := true;
    }

    /**
     * `onopen` of the current socket: the counter is reset, and a `join`
     * carrying the captured room and user (and the stored username or
     * 'User') is sent.
     */
    method OnOpen(storedUsername: Json)
      requires Valid() && ws.Some? && ws.value.state == Connecting
      modifies this
      ensures Valid()
      ensures reconnectAttempts == 0 && lastOpen == |delays| && delays == old(delays)
      ensures ws == Some(old(ws).value.(state := Open))
      ensures sent == old(sent) + [Stamped(map["type" := JStr("join"), "roomId" := old(ws).value.roomId,
                                                "userId" := old(ws).value.userId,
                                                "username" := Or(storedUsername, JStr("User"))], userId, roomId)]
      ensures roomId == old(roomId) && userId == old(userId) && delivered == old(delivered)
      ensures pendingReconnects == old(pendingReconnects)
      ensures created == old(created) && wsUrl == old(wsUrl) && hasCallback == old(hasCallback)
    {
      ws := Some(ws.value.(state := Open));
      reconnectAttempts := 0;
      lastOpen := |delays|;
      var okSend := Send(map["type" := JStr("join"), "roomId" := ws.value.roomId, "userId" := ws.value.userId,
                             "username" := Or(storedUsername, JStr("User"))]);
    }

    /**
     * `onmessage`: `frame` is the result of `JSON.parse` (None when it
     * throws). A message from the own id never reaches the callback.
     */
    method OnMessage(frame: Option<Json>)
      requires Valid()
      modifies this`delivered
      ensures Valid()
      ensures delivered == old(delivered) +
        (if frame.Some? && !Nullish(frame.value) && Get(frame.value, "from") != userId && hasCallback
         then [frame.value] else [])
    {
      if frame.None? || Nullish(frame.value) {
        return;
      }
      var message := frame.value;
      if Get(message, "from") == userId {
        return;
      }
      if hasCallback {
        delivered := delivered + [message];
      }
    }

    /** `onclose` of socket `id` (the current one, or one already dropped): try to reconnect. */
    method OnClose(id: nat)
      requires Valid() && id < created
      modifies this
      ensures Valid()
      ensures ws == (if old(ws).Some? && old(ws).value.id == id then Some(old(ws).value.(state := Closed)) else old(ws))
      ensures var scheduled := old(reconnectAttempts) < MaxReconnectAttempts && Truthy(roomId);
        && reconnectAttempts == (if scheduled then old(reconnectAttempts) + 1 else old(reconnectAttempts))
        && delays == old(delays) + (if scheduled then [ReconnectDelay(reconnectAttempts)] else [])
        && pendingReconnects == old(pendingReconnects) + (if scheduled then 1 else 0)
      ensures !Truthy(roomId) ==> delays == old(delays)
      ensures roomId == old(roomId) && userId == old(userId) && sent == old(sent) && delivered == old(delivered)
      ensures lastOpen == old(lastOpen)
      ensures created == old(created) && wsUrl == old(wsUrl) && hasCallback == old(hasCallback)
    {
      if ws.Some? && ws.value.id == id {
        ws := Some(ws.value.(state := Closed));
      }
      AttemptReconnect();
    }

    /** `attemptReconnect`: schedules one more reconnect while under the ceiling and a room is set. */
    method AttemptReconnect()
      requires Valid()
      modifies this
      ensures Valid()
      ensures var scheduled := old(reconnectAttempts) < MaxReconnectAttempts && Truthy(roomId);
        && reconnectAttempts == (if scheduled then old(reconnectAttempts) + 1 else old(reconnectAttempts))
        && delays == old(delays) + (if scheduled then [ReconnectDelay(reconnectAttempts)] else [])
        && pendingReconnects == old(pendingReconnects) + (if scheduled then 1 else 0)
      ensures ws == old(ws) && roomId == old(roomId) && userId == old(userId)
      ensures sent == old(sent) && delivered == old(delivered) && lastOpen == old(lastOpen)
      ensures created == old(created) && wsUrl == old(wsUrl) && hasCallback == old(hasCallback)
    {
      if reconnectAttempts < MaxReconnectAttempts && Truthy(roomId) {
        reconnectAttempts := reconnectAttempts + 1;
        var delay := Min(1000 * Pow2(reconnectAttempts), 10000);
        DelaySchedule(reconnectAttempts);
        assert delays[lastOpen..] + [delay] == BackoffSchedule[..reconnectAttempts];
        delays := delays + [delay];
        assert delays[lastOpen..] == old(delays)[lastOpen..] + [delay];
        pendingReconnects := pendingReconnects + 1;
      }
    }

    /**
     * A scheduled reconnect fires: `connect(this.roomId, this.userId, ...)`
     * with whatever is stored now, so a room cleared by `disconnect` stays
     * cleared.
     */
    method FireReconnect(accepted: bool) returns (ok: bool)
      requires Valid() && pendingReconnects > 0
      modifies this
      ensures Valid()
      ensures pendingReconnects == old(pendingReconnects) - 1
      ensures roomId == old(roomId) && userId == old(userId)
      ensures ok <==> !UrlRejected(wsUrl) && accepted
      ensures ok ==> ws == Some(Socket(old(created), Connecting, roomId, userId)) && created == old(created) + 1
      ensures !ok ==> ws == old(ws) && created == old(created)
      ensures reconnectAttempts == old(reconnectAttempts) && delays == old(delays)
      ensures sent == old(sent) && delivered == old(delivered) && lastOpen == old(lastOpen)
      ensures wsUrl == old(wsUrl) && hasCallback == old(hasCallback)
    {
      pendingReconnects := pendingReconnects - 1;
      ok := Connect(roomId, userId, hasCallback, accepted);
    }

    /** `send`: only over an OPEN socket, with `from` and `roomId` overwritten by the stored ones. */
    method Send(message: map<string, Json>) returns (ok: bool)
      modifies this`sent
      ensures ok <==> ws.Some? && ws.value.state == Open
      ensures sent == old(sent) + (if ok then [Stamped(message, userId, roomId)] else [])
    {
      if ws.Some? && ws.value.state == Open {
        sent := sent + [JObj(message["from" := userId]["roomId" := roomId])];
        return true;
      }
      return false;
    }

    /** `disconnect`: drops the socket (its close event may still arrive) and clears room and user. */
    method Disconnect()
      requires Valid()
      modifies this
      ensures Valid()
      ensures ws == None && roomId == JNull && userId == JNull
      ensures reconnectAttempts == old(reconnectAttempts) && delays == old(delays)
      ensures sent == old(sent) && delivered == old(delivered) && created == old(created)
      ensures pendingReconnects == old(pendingReconnects)
      ensures wsUrl == old(wsUrl) && hasCallback == old(hasCallback) && lastOpen == old(lastOpen)
    {
      ws := None;
      roomId, userId := JNull, JNull;
    }
  }

  /** After `disconnect`, a close of any socket schedules nothing. */
  method DisconnectThenClose(t: WebSocketSignaling, id: nat)
    requires t.Valid() && id < t.created
    modifies t
    ensures t.delays == old(t.delays) && t.reconnectAttempts == old(t.reconnectAttempts)
  {
    t.Disconnect();
    t.OnClose(id);
  }
}
