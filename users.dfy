/**
 * The Python Socket.IO relay: a directory from chosen usernames to session
 * ids (`USERS`), registration, disconnect clean-up and the targeted relay of
 * signals and hang-ups. Emits are recorded in a log instead of being sent.
 */
module Users {
  import opened Json

  /** `d.get(key, default)` on a dict. */
  function PyGet(d: Json, key: string, default: Json): Json
    requires d.JObj?
  {
    if key in d.fields then d.fields[key] else default
  }

  /** Lists and dicts cannot be dict keys: `x in USERS` raises a TypeError for them. */
  predicate Hashable(v: Json)
  {
    !v.JArr? && !v.JObj?
  }

  /** Who a broadcast or a targeted emit reaches (`broadcast=True`, `room=target_sid`). */
  datatype Audience = Everyone | Only(target: Json)

  /** One `emit` call; the first two go back to the registering client only. */
  datatype Emit =
    | RegistrationFailed(sender: string, error: string)
    | YourIdentity(sender: string, id: Json, sid: string)
    | UserListUpdate(users: map<Json, string>)
    | PeerHungUp(audience: Audience, peerId: Json)
    | SignalFromPeer(target: Json, payload: map<string, Json>)

  const Required := "Username is required."
  const Taken := "Username is already taken."

  /** `USERS`: the dict's keys in insertion order, and the dict itself. */
  datatype Directory = Directory(order: seq<Json>, users: map<Json, string>)

  /** The key order lists each key once, and every key is a non-empty hashable name. */
  predicate WellFormed(d: Directory)
  {
    && NoDup(d.order)
    && (forall k | k in d.order :: k in d.users)
    && (forall k | k in d.users :: k in d.order && PyTruthy(k) && Hashable(k))
  }

  /** Some user is registered from `sid`. */
  predicate HasSid(d: Directory, sid: string)
  {
    exists k | k in d.users :: d.users[k] == sid
  }

  // ---------------------------------------------------------------------
  // Reverse lookup

  /** `get_user_id_from_sid`: the first key, in iteration order, whose value is `sid`. */
  function SidOwner(order: seq<Json>, users: map<Json, string>, sid: string): Option<Json>
    decreases |order|
  {
    if order == [] then None
    else if order[0] in users && users[order[0]] == sid then Some(order[0])
    else SidOwner(order[1..], users, sid)
  }

  /** The lookup finds a key mapped to `sid`, no earlier key is, and it finds none only when no key is. */
  lemma {:induction false} SidOwnerSpec(order: seq<Json>, users: map<Json, string>, sid: string)
    ensures var r := SidOwner(order, users, sid);
      && (r.Some? ==> r.value in order && r.value in users && users[r.value] == sid)
      && (r.Some? ==> exists i | 0 <= i < |order| :: order[i] == r.value
                        && forall j | 0 <= j < i :: !(order[j] in users && users[order[j]] == sid))
      && (r.None? <==> forall k | k in order && k in users :: users[k] != sid)
    decreases |order|
  {
    if order != [] {
      SidOwnerSpec(order[1..], users, sid);
      var r := SidOwner(order, users, sid);
      if !(order[0] in users && users[order[0]] == sid) && r.Some? {
        var i :| 0 <= i < |order[1..]| && order[1..][i] == r.value
                 && forall j | 0 <= j < i :: !(order[1..][j] in users && users[order[1..][j]] == sid);
        assert order[i + 1] == r.value;
        forall j | 0 <= j < i + 1
          ensures !(order[j] in users && users[order[j]] == sid)
        {
          if j > 0 {
            assert order[j] == order[1..][j - 1];
          }
        }
      }
    }
  }

  /** On a well-formed directory the lookup fails exactly when nobody is registered from `sid`. */
  lemma OwnerExists(d: Directory, sid: string)
    requires WellFormed(d)
    ensures SidOwner(d.order, d.users, sid).Some? <==> HasSid(d, sid)
    ensures SidOwner(d.order, d.users, sid).Some? ==> SidOwner(d.order, d.users, sid).value in d.users
  {
    SidOwnerSpec(d.order, d.users, sid);
  }

  /** `get_user_id_from_sid(sid)` as Python sees it: `None` becomes `null` in a payload. */
  function FromId(d: Directory, sid: string): Json
  {
    match SidOwner(d.order, d.users, sid)
    case None => JNull
    case Some(u) => u
  }

  // ---------------------------------------------------------------------
  // The handlers as transitions

  datatype Step = Step(dir: Directory, out: seq<Emit>)

  /** The username `on_register_user` reads; `null` when `data` is not a dict. */
  function Name(data: Json): Json
  {
    if data.JObj? then PyGet(data, "username", JNull) else JNull
  }

  /**
   * `on_register_user`. A `data` that is not a dict, or a truthy name that
   * is a list or a dict, raises before anything is stored or sent.
   */
  function Register(d: Directory, sid: string, data: Json): (r: Step)
    ensures WellFormed(d) ==> WellFormed(r.dir)
    ensures !PyTruthy(Name(data)) ==>
      r.dir == d && r.out == (if data.JObj? then [RegistrationFailed(sid, Required)] else [])
    ensures WellFormed(d) && Name(data) in d.users ==> r.dir == d && r.out == [RegistrationFailed(sid, Taken)]
    ensures r.dir != d <==> PyTruthy(Name(data)) && Hashable(Name(data)) && Name(data) !in d.users
    ensures r.dir != d ==>
      && r.dir.users == d.users[Name(data) := sid]
      && r.dir.order == d.order + [Name(data)]
      && r.out == [YourIdentity(sid, Name(data), sid), UserListUpdate(r.dir.users)]
  {
    var name := Name(data);
    if !data.JObj? then Step(d, [])
    else if !PyTruthy(name) then Step(d, [RegistrationFailed(sid, Required)])
    else if !Hashable(name) then Step(d, [])
    else if name in d.users then Step(d, [RegistrationFailed(sid, Taken)])
    else
      var users := d.users[name := sid];
      assert users != d.users by { assert name in users && name !in d.users; }
      Step(Directory(d.order + [name], users), [YourIdentity(sid, name, sid), UserListUpdate(users)])
  }

  /** `on_disconnect`: the looked-up user is removed and both broadcasts go out; otherwise nothing. */
  function Disconnect(d: Directory, sid: string): (r: Step)
    requires WellFormed(d)
    ensures WellFormed(r.dir)
    ensures !HasSid(d, sid) ==> r == Step(d, [])
    ensures SidOwner(d.order, d.users, sid).Some? <==> HasSid(d, sid)
    ensures SidOwner(d.order, d.users, sid).Some? ==>
      var u := SidOwner(d.order, d.users, sid).value;
      && u in d.users && d.users[u] == sid
      && r.dir.users == d.users - {u}
      && r.out == [UserListUpdate(r.dir.users), PeerHungUp(Everyone, u)]
  {
    OwnerExists(d, sid);
    SidOwnerSpec(d.order, d.users, sid);
    var owner := SidOwner(d.order, d.users, sid);
    if owner.Some? && owner.value in d.users then
      var users := d.users - {owner.value};
      Step(Directory(Without(d.order, owner.value), users),
           [UserListUpdate(users), PeerHungUp(Everyone, owner.value)])
    else Step(d, [])
  }

  /**
   * `on_relay_signal`: the payload (an empty dict when absent) is stamped with
   * the sender's identity and sent to the target only. No `target_sid` means
   * no emit; a payload that is not a dict, like a `data` that is not one, raises.
   */
  function Relay(d: Directory, sid: string, data: Json): (r: seq<Emit>)
    ensures |r| <= 1
    ensures (!data.JObj? || !PyTruthy(PyGet(data, "target_sid", JNull))) ==> r == []
    ensures |r| == 1 <==>
      && data.JObj? && PyTruthy(PyGet(data, "target_sid", JNull))
      && PyGet(data, "payload", JObj(map[])).JObj?
    ensures r != [] ==>
      && r[0].SignalFromPeer?
      && r[0].target == PyGet(data, "target_sid", JNull)
      && "from_id" in r[0].payload && r[0].payload["from_id"] == FromId(d, sid)
      && "from_sid" in r[0].payload && r[0].payload["from_sid"] == JStr(sid)
      && var p := PyGet(data, "payload", JObj(map[]));
        && p.JObj?
        && r[0].payload.Keys == p.fields.Keys + {"from_id", "from_sid"}
        && forall k | k in p.fields && k != "from_id" && k != "from_sid" ::
             k in r[0].payload && r[0].payload[k] == p.fields[k]
  {
    if !data.JObj? then []
    else
      var target := PyGet(data, "target_sid", JNull);
      if !PyTruthy(target) then []
      else
        var payload := PyGet(data, "payload", JObj(map[]));
        if !payload.JObj? then []
        else [SignalFromPeer(target, payload.fields["from_id" := FromId(d, sid)]["from_sid" := JStr(sid)])]
  }

  /** `on_hang_up`: relayed, with the sender's identity, exactly when a target is given. */
  function HangUp(d: Directory, sid: string, data: Json): (r: seq<Emit>)
    ensures r != [] <==> data.JObj? && PyTruthy(PyGet(data, "target_sid", JNull))
    ensures r != [] ==> r == [PeerHungUp(Only(PyGet(data, "target_sid", JNull)), FromId(d, sid))]
  {
    if !data.JObj? then []
    else
      var target := PyGet(data, "target_sid", JNull);
      if PyTruthy(target) then [PeerHungUp(Only(target), FromId(d, sid))] else []
  }

  // ---------------------------------------------------------------------
  // Properties relating several handlers

  /** Keys before the first one mapped to `sid` do not affect the lookup. */
  lemma {:induction false} SidOwnerSkip(prefix: seq<Json>, rest: seq<Json>, users: map<Json, string>, sid: string)
    requires forall k | k in prefix :: !(k in users && users[k] == sid)
    ensures SidOwner(prefix + rest, users, sid) == SidOwner(rest, users, sid)
    decreases |prefix|
  {
    if prefix != [] {
      assert (prefix + rest)[0] == prefix[0] && prefix[0] in prefix;
      assert (prefix + rest)[1..] == prefix[1..] + rest;
      SidOwnerSkip(prefix[1..], rest, users, sid);
    } else {
      assert prefix + rest == rest;
    }
  }

  /** A fresh session that registers and then disconnects leaves `USERS` as it was. */
  lemma RegisterThenDisconnect(d: Directory, sid: string, data: Json)
    requires WellFormed(d) && !HasSid(d, sid)
    requires Register(d, sid, data).dir != d
    ensures Disconnect(Register(d, sid, data).dir, sid).dir == d
  {
    var name := Name(data);
    var d1 := Register(d, sid, data).dir;
    assert d1 == Directory(d.order + [name], d.users[name := sid]);
    SidOwnerSkip(d.order, [name], d1.users, sid);
    assert SidOwner(d1.order, d1.users, sid) == Some(name);
    assert d1.users - {name} == d.users;
    WithoutAppended(d.order, name);
  }

  lemma {:induction false} WithoutAppended(s: seq<Json>, x: Json)
    requires x !in s
    ensures Without(s + [x], x) == s
    decreases |s|
  {
    if s != [] {
      assert (s + [x])[1..] == s[1..] + [x];
      WithoutAppended(s[1..], x);
    }
  }

  /**
   * A session that registers a second name keeps the first: disconnecting
   * removes only the earlier entry, and the later one is left behind with a
   * session that no longer exists.
   */
  lemma SecondNameOutlivesSession(d: Directory, sid: string, first: Json, second: Json)
    requires WellFormed(d) && !HasSid(d, sid)
    requires Register(d, sid, first).dir != d
    requires var d1 := Register(d, sid, first).dir; Register(d1, sid, second).dir != d1
    ensures var d2 := Register(Register(d, sid, first).dir, sid, second).dir;
      var gone := Disconnect(d2, sid).dir;
      && Name(first) !in gone.users
      && Name(second) in gone.users && gone.users[Name(second)] == sid
  {
    var a, b := Name(first), Name(second);
    var d1 := Register(d, sid, first).dir;
    assert d1 == Directory(d.order + [a], d.users[a := sid]);
    var d2 := Register(d1, sid, second).dir;
    assert d2 == Directory(d1.order + [b], d1.users[b := sid]);
    assert a != b;
    assert d2.order == d.order + [a, b];
    SidOwnerSkip(d.order, [a, b], d2.users, sid);
    assert SidOwner(d2.order, d2.users, sid) == Some(a);
  }

  // ---------------------------------------------------------------------
  // The server's global state

  class UserDirectory {
    var order: seq<Json>
    var users: map<Json, string>
    var emits: seq<Emit>

    function Dir(): Directory
      reads this
    {
      Directory(order, users)
    }

    ghost predicate Valid()
      reads this
    {
      WellFormed(Dir())
    }

    constructor ()
      ensures Valid() && users == map[] && order == [] && emits == []
    {
      order, users, emits := [], map[], [];
    }

    /** `get_user_id_from_sid`: a scan of `USERS.items()` in insertion order. */
    method GetUserIdFromSid(sid: string) returns (r: Option<Json>)
      requires Valid()
      ensures r == SidOwner(order, users, sid)
      ensures r.Some? ==> r.value in users && users[r.value] == sid
      ensures r.None? <==> !HasSid(Dir(), sid)
    {
      OwnerExists(Dir(), sid);
      SidOwnerSpec(order, users, sid);
      var i := 0;
      while i < |order|
        invariant 0 <= i <= |order|
        invariant SidOwner(order[i..], users, sid) == SidOwner(order, users, sid)
      {
        assert order[i..][1..] == order[i + 1..];
        if users[order[i]] == sid {
          return Some(order[i]);
        }
        i := i + 1;
      }
      return None;
    }

    method OnRegisterUser(sid: string, data: Json)
      requires Valid()
      modifies this
      ensures Valid()
      ensures var step := Register(old(Dir()), sid, data);
        Dir() == step.dir && emits == old(emits) + step.out
    {
      if !data.JObj? {
        return;
      }
      var username := PyGet(data, "username", JNull);
      if !PyTruthy(username) {
        emits := emits + [RegistrationFailed(sid, Required)];
        return;
      }
      if !Hashable(username) {
        return;
      }
      if username in users {
        emits := emits + [RegistrationFailed(sid, Taken)];
        return;
      }
      users := users[username := sid];
      order := order + [username];
      emits := emits + [YourIdentity(sid, username, sid), UserListUpdate(users)];
    }

    method OnDisconnect(sid: string)
      requires Valid()
      modifies this
      ensures Valid()
      ensures var step := Disconnect(old(Dir()), sid);
        Dir() == step.dir && emits == old(emits) + step.out
    {
      var userId := GetUserIdFromSid(sid);
      if userId.Some? && userId.value in users {
        var u := userId.value;
        users := users - {u};
        order := Without(order, u);
        emits := emits + [UserListUpdate(users), PeerHungUp(Everyone, u)];
      }
    }

    method OnRelaySignal(sid: string, data: Json)
      requires Valid()
      modifies this
      ensures Dir() == old(Dir())
      ensures emits == old(emits) + Relay(Dir(), sid, data)
    {
      if !data.JObj? {
        return;
      }
      var target := PyGet(data, "target_sid", JNull);
      if !PyTruthy(target) {
        return;
      }
      var payload := PyGet(data, "payload", JObj(map[]));
      if !payload.JObj? {
        return;
      }
      var fromId := GetUserIdFromSid(sid);
      var stamp := if fromId.Some? then fromId.value else JNull;
      emits := emits + [SignalFromPeer(target, payload.fields["from_id" := stamp]["from_sid" := JStr(sid)])];
    }

    method OnHangUp(sid: string, data: Json)
      requires Valid()
      modifies this
      ensures Dir() == old(Dir())
      ensures emits == old(emits) + HangUp(Dir(), sid, data)
    {
      if !data.JObj? {
        return;
      }
      var target := PyGet(data, "target_sid", JNull);
      if PyTruthy(target) {
        var userId := GetUserIdFromSid(sid);
        emits := emits + [PeerHungUp(Only(target), if userId.Some? then userId.value else JNull)];
      }
    }
  }
}
