/** The real-time session engine: the handshake gate, the per-connection room
    subscriptions, presence writes, message ingestion over the socket and
    the two broadcast audiences (`io.to(room)`: every subscriber;
    `socket.to(room)`: every subscriber but the acting connection). Sent
    events are appended to an outbox in delivery order. */
module SocketEngine {
  import opened Wrappers
  import opened Strings
  import opened Wire
  import opened Seqs
  import opened Models
  import opened Store

  type ConnId = nat

  /** One event delivered to one connection. */
  datatype Delivery = Delivery(to: ConnId, event: string, data: Json)

  // ---------------------------------------------------------------------------
  // Fan-out

  /** Whether connection `c` is in the audience of an emit to `room` that
      excludes `except`. */
  predicate Receives(subs: map<ConnId, set<Id>>, c: ConnId, room: Id, except: Option<ConnId>) {
    c in subs && room in subs[c] && except != Some(c)
  }

  /** The deliveries of one emit to `room`, in connection order. */
  function Fanout(conns: seq<ConnId>, subs: map<ConnId, set<Id>>, room: Id, except: Option<ConnId>,
                  event: string, data: Json): (r: seq<Delivery>)
    ensures forall i :: 0 <= i < |r| ==>
      r[i].to in conns && Receives(subs, r[i].to, room, except) && r[i].event == event && r[i].data == data
  {
    if conns == [] then []
    else
      (if Receives(subs, conns[0], room, except) then [Delivery(conns[0], event, data)] else [])
      + Fanout(conns[1..], subs, room, except, event, data)
  }

  /** An emit reaches exactly the subscribed connections other than the
      excluded one, with the emitted event and data. */
  lemma {:induction false} FanoutAudience(conns: seq<ConnId>, subs: map<ConnId, set<Id>>, room: Id,
                                          except: Option<ConnId>, event: string, data: Json, d: Delivery)
    ensures d in Fanout(conns, subs, room, except, event, data) <==>
      d.to in conns && Receives(subs, d.to, room, except) && d.event == event && d.data == data
  {
    if conns != [] {
      FanoutAudience(conns[1..], subs, room, except, event, data, d);
    }
  }

  predicate DistinctRecipients(ds: seq<Delivery>) {
    forall i, j :: 0 <= i < j < |ds| ==> ds[i].to != ds[j].to
  }

  /** An emit reaches each connection at most once. */
  lemma {:induction false} FanoutOnce(conns: seq<ConnId>, subs: map<ConnId, set<Id>>, room: Id,
                                      except: Option<ConnId>, event: string, data: Json)
    requires Distinct(conns)
    ensures DistinctRecipients(Fanout(conns, subs, room, except, event, data))
  {
    if conns != [] {
      var r := Fanout(conns, subs, room, except, event, data);
      var tail := Fanout(conns[1..], subs, room, except, event, data);
      FanoutOnce(conns[1..], subs, room, except, event, data);
      assert Distinct(conns[1..]);
      forall k | 0 <= k < |tail| ensures tail[k].to != conns[0] {
        assert tail[k].to in conns[1..];
      }
      if Receives(subs, conns[0], room, except) {
        assert r == [Delivery(conns[0], event, data)] + tail;
        forall i, j | 0 <= i < j < |r| ensures r[i].to != r[j].to {
          assert r[j] == tail[j - 1];
          if i > 0 {
            assert r[i] == tail[i - 1];
          }
        }
      } else {
        assert r == tail;
      }
    }
  }

  /** `{ userId, username }`, the data of user-joined, user-left and user-typing. */
  function PresenceData(u: User): (r: Json)
    ensures Keys(r) == {"userId", "username"}
  {
    JObj(map["userId" := JStr(u.id), "username" := JStr(u.username)])
  }

  /** `{ userId }`, the data of user-stop-typing. */
  function StopTypingData(u: User): (r: Json)
    ensures Keys(r) == {"userId"}
  {
    JObj(map["userId" := JStr(u.id)])
  }

  const SendFailure := "Failed to send message"

  function ErrorData(message: string): (r: Json)
    ensures Keys(r) == {"message"} && Get(r, "message") == Some(JStr(message))
  {
    JObj(map["message" := JStr(message)])
  }

  /** The `file` sub-document as it travels on the wire. */
  function FileJson(f: FileMeta): (r: Json)
    ensures Keys(r) == {"filename", "originalName", "mimetype", "size", "path"}
  {
    JObj(map["filename" := JStr(f.filename), "originalName" := JStr(f.originalName),
             "mimetype" := JStr(f.mimetype), "size" := JNum(f.size), "path" := JStr(f.path)])
  }

  /** The new-message data of the socket path (and of file uploads). */
  function SocketPayload(m: Message): (r: Json)
    ensures Keys(r) == {"_id", "message", "messageType", "file", "senderNick", "senderId", "room", "createdAt"}
    ensures Get(r, "message") == Some(JStr(m.message)) && Get(r, "senderNick") == Some(JStr(m.senderNick))
    ensures Get(r, "messageType") == Some(JStr(m.messageType.Name()))
    ensures Get(r, "file") == Some(if m.file.Some? then FileJson(m.file.value) else JNull)
    ensures Get(r, "senderId") == Some(JStr(m.senderId)) && Get(r, "room") == Some(JStr(m.room))
  {
    JObj(map[
      "_id" := JStr(m.id),
      "message" := JStr(m.message),
      "messageType" := JStr(m.messageType.Name()),
      "file" := (match m.file case Some(f) => FileJson(f) case None => JNull),
      "senderNick" := JStr(m.senderNick),
      "senderId" := JStr(m.senderId),
      "room" := JStr(m.room),
      "createdAt" := JNum(m.createdAt)])
  }

  // ---------------------------------------------------------------------------
  // Handshake

  datatype Gate = Admitted(user: User) | Refused(reason: string)

  /** The `io.use` gate. `token` is `socket.handshake.auth.token`; `verify`
      is the token check, None where it throws, else the id it carries. */
  function Handshake(token: Option<Json>, verify: string -> Option<Id>, users: seq<User>): (r: Gate)
    ensures !Truthy(token) <==> r == Refused("Authentication required")
    ensures Truthy(token) && (AsString(token).None? || verify(AsString(token).value).None?) ==>
      r == Refused("Authentication failed")
    ensures Truthy(token) && AsString(token).Some? && verify(AsString(token).value).Some? ==>
      var found := UserById(users, verify(AsString(token).value).value);
      (found.None? ==> r == Refused("User not found")) && (found.Some? ==> r == Admitted(found.value))
    ensures r.Admitted? ==> r.user in users
  {
    if !Truthy(token) then Refused("Authentication required")
    else match AsString(token)
      case None => Refused("Authentication failed")
      case Some(t) =>
        match verify(t)
        case None => Refused("Authentication failed")
        case Some(id) =>
          match UserById(users, id)
          case None => Refused("User not found")
          case Some(u) => Admitted(u)
  }

  // ---------------------------------------------------------------------------
  // Socket message ingestion

  datatype SendPlan = Ignore | Fail | Save(msg: Message)

  /** The `send-message` handler's decision for `data` from user `u`:
      silently ignore it, answer the sender with an error event, or store
      the message `msg` with fresh id `id` at time `now`. `storeUp` is
      false when the database write throws. */
  function PlanSend(u: User, data: Option<Json>, id: Id, now: int, storeUp: bool): (r: SendPlan)
    // destructuring undefined or null throws
    ensures (data.None? || data == Some(JNull)) ==> r == Fail
    ensures data.Some? && data.value != JNull ==>
      var text := Get(data.value, "message");
      && (r == Ignore <==> !Truthy(text) || (AsString(text).Some? && AllSpace(AsString(text).value)))
      && (Truthy(text) && AsString(text).None? ==> r == Fail)
    ensures r.Save? ==>
      var text := AsString(Get(data.value, "message")).value;
      && ValidMessage(r.msg) && r.msg.message == Trim(text) && r.msg.message != ""
      && r.msg.senderNick == u.username && r.msg.senderId == u.id
      && Some(r.msg.room) == AsString(Get(data.value, "roomId"))
      && r.msg.messageType == Text && r.msg.file.None? && r.msg.id == id && r.msg.createdAt == now
    ensures r.Save? ==> storeUp
  {
    if data.None? || data.value == JNull then Fail
    else
      var text := Get(data.value, "message");
      if !Truthy(text) then Ignore
      else match AsString(text)
        case None => Fail
        case Some(s) =>
          if Trim(s) == "" then Ignore
          else
            var draft := MessageDraft(Some(Trim(s)), None, None, Some(u.username), Some(u.id),
                                      AsString(Get(data.value, "roomId")));
            TrimIdempotent(s);
            match NewMessage(draft, id, now)
            case None => Fail
            case Some(m) => if storeUp then Save(m) else Fail
  }

  /** A well-formed send from a user with a name stores the trimmed text
      whenever the text fits and the write succeeds. */
  lemma SendAccepted(u: User, data: Json, roomId: Id, text: string, id: Id, now: int)
    requires Get(data, "roomId") == Some(JStr(roomId)) && Get(data, "message") == Some(JStr(text))
    requires u.username != "" && Trim(text) != "" && Utf16Length(Trim(text)) <= MaxMessageLength
    ensures PlanSend(u, Some(data), id, now, true).Save?
  {
    var m := Get(data, "message");
    assert text != "";
    assert Truthy(m) && AsString(m) == Some(text);
    assert AsString(Get(data, "roomId")) == Some(roomId);
    TrimIdempotent(text);
    var draft := MessageDraft(Some(Trim(text)), None, None, Some(u.username), Some(u.id), Some(roomId));
    assert AcceptsMessage(draft);
  }

  // ---------------------------------------------------------------------------
  // Disconnect notices

  /** The user-left deliveries of `socket.rooms.forEach(...)` over `rooms`. */
  function LeftNotices(conns: seq<ConnId>, subs: map<ConnId, set<Id>>, rooms: seq<Id>, c: ConnId, data: Json): seq<Delivery>
  {
    if rooms == [] then []
    else LeftNotices(conns, subs, rooms[..|rooms| - 1], c, data)
         + Fanout(conns, subs, rooms[|rooms| - 1], Some(c), "user-left", data)
  }

  lemma LeftNoticesSnoc(conns: seq<ConnId>, subs: map<ConnId, set<Id>>, rooms: seq<Id>, i: nat, c: ConnId, data: Json)
    requires i < |rooms|
    ensures LeftNotices(conns, subs, rooms[..i + 1], c, data)
      == LeftNotices(conns, subs, rooms[..i], c, data) + Fanout(conns, subs, rooms[i], Some(c), "user-left", data)
  {
    assert rooms[..i + 1][..i] == rooms[..i];
  }

  /** Disconnecting sends only user-left, never user-stop-typing: observers
      of a connection that drops while typing are not told it stopped. */
  lemma {:induction false} LeftNoticesAreUserLeft(conns: seq<ConnId>, subs: map<ConnId, set<Id>>, rooms: seq<Id>,
                                                  c: ConnId, data: Json)
    ensures forall d :: d in LeftNotices(conns, subs, rooms, c, data) ==>
      d.event == "user-left" && d.data == data && d.to != c && exists k :: 0 <= k < |rooms| && Receives(subs, d.to, rooms[k], Some(c))
  {
    if rooms != [] {
      var init := rooms[..|rooms| - 1];
      var last := rooms[|rooms| - 1];
      LeftNoticesAreUserLeft(conns, subs, init, c, data);
      forall d | d in LeftNotices(conns, subs, rooms, c, data)
        ensures d.event == "user-left" && d.data == data && d.to != c
        ensures exists k :: 0 <= k < |rooms| && Receives(subs, d.to, rooms[k], Some(c))
      {
        if d in LeftNotices(conns, subs, init, c, data) {
          var k :| 0 <= k < |init| && Receives(subs, d.to, init[k], Some(c));
          assert rooms[k] == init[k];
        } else {
          FanoutAudience(conns, subs, last, Some(c), "user-left", data, d);
          assert Receives(subs, d.to, rooms[|rooms| - 1], Some(c));
        }
      }
    }
  }

  /** Every other subscriber of each left room is told. */
  lemma {:induction false} LeftNoticesReach(conns: seq<ConnId>, subs: map<ConnId, set<Id>>, rooms: seq<Id>,
                                            c: ConnId, data: Json, k: nat, other: ConnId)
    requires k < |rooms| && other in conns && Receives(subs, other, rooms[k], Some(c))
    ensures Delivery(other, "user-left", data) in LeftNotices(conns, subs, rooms, c, data)
  {
    var init := rooms[..|rooms| - 1];
    if k == |rooms| - 1 {
      FanoutAudience(conns, subs, rooms[k], Some(c), "user-left", data, Delivery(other, "user-left", data));
    } else {
      assert init[k] == rooms[k];
      LeftNoticesReach(conns, subs, init, c, data, k, other);
    }
  }

  // ---------------------------------------------------------------------------
  // The connection registry

  class Hub {
    /** Live connections in connection order. */
    var conns: seq<ConnId>
    /** The rooms each live connection is subscribed to. */
    var subs: map<ConnId, set<Id>>
    /** `socket.user` of each live connection. */
    var who: map<ConnId, User>
    /** Every event delivered so far. */
    var outbox: seq<Delivery>

    ghost predicate Valid()
      reads this
    {
      && Distinct(conns)
      && subs.Keys == who.Keys
      && (forall c :: c in subs.Keys <==> c in conns)
    }

    constructor ()
      ensures Valid()
      ensures conns == [] && subs == map[] && who == map[] && outbox == []
    {
      conns := [];
      subs := map[];
      who := map[];
      outbox := [];
    }

    /** `io.to(room).emit(event, data)`. */
    method Broadcast(room: Id, event: string, data: Json)
      requires Valid()
      modifies this
      ensures Valid()
      ensures conns == old(conns) && subs == old(subs) && who == old(who)
      ensures outbox == old(outbox) + Fanout(conns, subs, room, None, event, data)
    {
      outbox := outbox + Fanout(conns, subs, room, None, event, data);
    }

    /** The handshake gate followed, on admission, by the `connection`
        handler's presence write. `c` is the new connection's id. */
    method Connect(c: ConnId, token: Option<Json>, verify: string -> Option<Id>, db: Db) returns (gate: Gate)
      requires Valid() && c !in conns
      modifies this, db
      ensures Valid()
      ensures gate == Handshake(token, verify, old(db.users))
      ensures gate.Refused? ==>
        conns == old(conns) && subs == old(subs) && who == old(who) && db.users == old(db.users)
      ensures gate.Admitted? ==>
        && conns == old(conns) + [c] && subs == old(subs)[c := {}] && who == old(who)[c := gate.user]
        && db.users == SetOnline(old(db.users), gate.user.id, true)
      ensures outbox == old(outbox) && db.rooms == old(db.rooms) && db.messages == old(db.messages)
    {
      gate := Handshake(token, verify, db.users);
      if gate.Admitted? {
        conns := conns + [c];
        subs := subs[c := {}];
        who := who[c := gate.user];
        db.SetPresence(gate.user.id, true);
      }
    }

    /** `join-room`: subscribes without consulting the room's participants,
        then tells the other subscribers. */
    method JoinRoom(c: ConnId, roomId: Id)
      requires Valid() && c in conns
      modifies this
      ensures Valid()
      ensures conns == old(conns) && who == old(who)
      ensures subs == old(subs)[c := old(subs)[c] + {roomId}]
      ensures outbox == old(outbox) + Fanout(conns, subs, roomId, Some(c), "user-joined", PresenceData(who[c]))
    {
      subs := subs[c := subs[c] + {roomId}];
      outbox := outbox + Fanout(conns, subs, roomId, Some(c), "user-joined", PresenceData(who[c]));
    }

    /** `leave-room`: unsubscribes, then tells the remaining subscribers. */
    method LeaveRoom(c: ConnId, roomId: Id)
      requires Valid() && c in conns
      modifies this
      ensures Valid()
      ensures conns == old(conns) && who == old(who)
      ensures subs == old(subs)[c := old(subs)[c] - {roomId}]
      ensures outbox == old(outbox) + Fanout(conns, subs, roomId, Some(c), "user-left", PresenceData(who[c]))
    {
      subs := subs[c := subs[c] - {roomId}];
      outbox := outbox + Fanout(conns, subs, roomId, Some(c), "user-left", PresenceData(who[c]));
    }

    /** `typing`: relayed to the other subscribers; nothing is stored. */
    method Typing(c: ConnId, roomId: Id)
      requires Valid() && c in conns
      modifies this
      ensures Valid()
      ensures conns == old(conns) && subs == old(subs) && who == old(who)
      ensures outbox == old(outbox) + Fanout(conns, subs, roomId, Some(c), "user-typing", PresenceData(who[c]))
    {
      outbox := outbox + Fanout(conns, subs, roomId, Some(c), "user-typing", PresenceData(who[c]));
    }

    /** `stop-typing`: relayed to the other subscribers; nothing is stored. */
    method StopTyping(c: ConnId, roomId: Id)
      requires Valid() && c in conns
      modifies this
      ensures Valid()
      ensures conns == old(conns) && subs == old(subs) && who == old(who)
      ensures outbox == old(outbox) + Fanout(conns, subs, roomId, Some(c), "user-stop-typing", StopTypingData(who[c]))
    {
      outbox := outbox + Fanout(conns, subs, roomId, Some(c), "user-stop-typing", StopTypingData(who[c]));
    }

    /** `send-message`: carries out `PlanSend`. A stored message goes to every
        subscriber of its room, the sender included whether subscribed or
        not; a failure reaches the sender alone. */
    method SendMessage(c: ConnId, data: Option<Json>, id: Id, now: int, storeUp: bool, db: Db)
      requires Valid() && c in conns && db.Valid()
      modifies this, db
      ensures Valid() && db.Valid()
      ensures conns == old(conns) && subs == old(subs) && who == old(who)
      ensures db.users == old(db.users) && db.rooms == old(db.rooms)
      ensures match PlanSend(who[c], data, id, now, storeUp)
        case Ignore => db.messages == old(db.messages) && outbox == old(outbox)
        case Fail => db.messages == old(db.messages) && outbox == old(outbox) + [Delivery(c, "error", ErrorData(SendFailure))]
        case Save(m) => db.messages == old(db.messages) + [m]
                         && outbox == old(outbox) + Fanout(conns, subs, m.room, None, "new-message", SocketPayload(m))
    {
      var plan := PlanSend(who[c], data, id, now, storeUp);
      match plan
      case Ignore =>
      case Fail =>
        outbox := outbox + [Delivery(c, "error", ErrorData(SendFailure))];
      case Save(m) =>
        db.AddMessage(m);
        Broadcast(m.room, "new-message", SocketPayload(m));
    }

    /** `disconnect`: the presence write, one user-left emit per room in
        `rooms` (the connection's `socket.rooms` at that moment, in
        iteration order), then the connection is gone. */
    method Disconnect(c: ConnId, rooms: seq<Id>, db: Db)
      requires Valid() && c in conns
      modifies this, db
      ensures Valid()
      ensures db.users == SetOnline(old(db.users), old(who)[c].id, false)
      ensures db.rooms == old(db.rooms) && db.messages == old(db.messages)
      ensures outbox == old(outbox) + LeftNotices(old(conns), old(subs), rooms, c, PresenceData(old(who)[c]))
      ensures conns == Filter(old(conns), NotConn(c)) && c !in conns
      ensures subs == old(subs) - {c} && who == old(who) - {c}
    {
      var u := who[c];
      var r := Unregister(conns, subs, who, c);
      db.SetPresence(u.id, false);
      NotifyLeft(c, rooms, PresenceData(u));
      conns, subs, who := r.0, r.1, r.2;
    }

    /** `socket.rooms.forEach(roomId => socket.to(roomId).emit('user-left', data))`. */
    method NotifyLeft(c: ConnId, rooms: seq<Id>, data: Json)
      modifies this
      ensures conns == old(conns) && subs == old(subs) && who == old(who)
      ensures outbox == old(outbox) + LeftNotices(conns, subs, rooms, c, data)
    {
      var cs, ss := conns, subs;
      var sent: seq<Delivery> := [];
      var i := 0;
      while i < |rooms|
        invariant 0 <= i <= |rooms|
        invariant sent == LeftNotices(cs, ss, rooms[..i], c, data)
        modifies {}
      {
        LeftNoticesSnoc(cs, ss, rooms, i, c, data);
        sent := sent + Fanout(cs, ss, rooms[i], Some(c), "user-left", data);
        i := i + 1;
      }
      assert rooms[..i] == rooms;
      outbox := outbox + sent;
    }
  }

  /** The registry without connection `c`. */
  function Unregister(conns: seq<ConnId>, subs: map<ConnId, set<Id>>, who: map<ConnId, User>, c: ConnId)
    : (r: (seq<ConnId>, map<ConnId, set<Id>>, map<ConnId, User>))
    requires Distinct(conns) && subs.Keys == who.Keys && (forall x :: x in subs.Keys <==> x in conns)
    ensures Distinct(r.0) && r.1.Keys == r.2.Keys && (forall x :: x in r.1.Keys <==> x in r.0)
    ensures r.0 == Filter(conns, NotConn(c)) && c !in r.0 && r.1 == subs - {c} && r.2 == who - {c}
  {
    var rest := Filter(conns, NotConn(c));
    assert forall x :: x in rest <==> x in conns && x != c by {
      forall x
        ensures x in rest <==> x in conns && x != c
      {
        FilterMembers(conns, NotConn(c), x);
      }
    }
    FilterDistinct(conns, NotConn(c));
    (rest, subs - {c}, who - {c})
  }

  function NotConn(c: ConnId): ConnId -> bool {
    (x: ConnId) => x != c
  }
}
