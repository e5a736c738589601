/** The chat screen of the client: the active room, its message list, the
    typing indicator, and what selecting a room and sending emit on the
    real-time channel. */
module ChatRoom {
  import opened Wrappers
  import opened Strings
  import opened Wire
  import opened Seqs
  import opened Models
  import opened SocketEngine
  import opened MessageInput

  // ---------------------------------------------------------------------------
  // Who is typing

  /** A user-typing notice: `{ userId, username }`. */
  datatype Typist = Typist(userId: Id, username: string)

  function OtherTypist(id: Id): Typist -> bool {
    (t: Typist) => t.userId != id
  }

  function SameTypist(id: Id): Typist -> bool {
    (t: Typist) => t.userId == id
  }

  /** No two entries share a user id. */
  predicate UniqueTypists(ts: seq<Typist>) {
    forall i, j :: 0 <= i < j < |ts| ==> ts[i].userId != ts[j].userId
  }

  /** The user-typing updater: the notice is appended unless an entry with
      the same user id is already listed. */
  function AddTypist(prev: seq<Typist>, t: Typist): (r: seq<Typist>)
    ensures (exists i :: 0 <= i < |prev| && prev[i].userId == t.userId) ==> r == prev
    ensures (forall i :: 0 <= i < |prev| ==> prev[i].userId != t.userId) ==> r == prev + [t]
  {
    if FindWhere(prev, SameTypist(t.userId)).Some? then prev else prev + [t]
  }

  /** Adding keeps the user ids unique, and the user is listed afterwards. */
  lemma AddTypistUnique(prev: seq<Typist>, t: Typist)
    requires UniqueTypists(prev)
    ensures UniqueTypists(AddTypist(prev, t))
    ensures exists i :: 0 <= i < |AddTypist(prev, t)| && AddTypist(prev, t)[i].userId == t.userId
  {
    var r := AddTypist(prev, t);
    if exists i :: 0 <= i < |prev| && prev[i].userId == t.userId {
    } else {
      assert r[|prev|] == t;
    }
  }

  /** The user-stop-typing updater: every entry with the user id goes, the
      others stay, in order. */
  function RemoveTypist(prev: seq<Typist>, id: Id): (r: seq<Typist>)
    ensures forall i :: 0 <= i < |r| ==> r[i].userId != id
    ensures forall x: Typist :: x.userId != id ==> multiset(r)[x] == multiset(prev)[x]
    ensures (forall i :: 0 <= i < |prev| ==> prev[i].userId != id) ==> r == prev
  {
    RemoveTypistFacts(prev, id);
    Filter(prev, OtherTypist(id))
  }

  lemma RemoveTypistFacts(prev: seq<Typist>, id: Id)
    ensures forall x: Typist :: x.userId != id ==> multiset(Filter(prev, OtherTypist(id)))[x] == multiset(prev)[x]
    ensures (forall i :: 0 <= i < |prev| ==> prev[i].userId != id) ==> Filter(prev, OtherTypist(id)) == prev
  {
    forall x: Typist | x.userId != id ensures multiset(Filter(prev, OtherTypist(id)))[x] == multiset(prev)[x] {
      FilterCount(prev, OtherTypist(id), x);
    }
    if forall i :: 0 <= i < |prev| ==> prev[i].userId != id {
      FilterAllPass(prev, OtherTypist(id));
    }
  }

  lemma UniqueTail(ts: seq<Typist>)
    requires ts != [] && UniqueTypists(ts)
    ensures UniqueTypists(ts[1..])
    ensures forall k :: 0 <= k < |ts[1..]| ==> ts[1..][k].userId != ts[0].userId
  {
    forall i, j | 0 <= i < j < |ts[1..]| ensures ts[1..][i].userId != ts[1..][j].userId {
      assert ts[1..][i] == ts[i + 1] && ts[1..][j] == ts[j + 1];
    }
    forall k | 0 <= k < |ts[1..]| ensures ts[1..][k].userId != ts[0].userId {
      assert ts[1..][k] == ts[k + 1];
    }
  }

  lemma UniqueCons(h: Typist, ts: seq<Typist>)
    requires UniqueTypists(ts) && forall k :: 0 <= k < |ts| ==> ts[k].userId != h.userId
    ensures UniqueTypists([h] + ts)
  {
    var r := [h] + ts;
    forall i, j | 0 <= i < j < |r| ensures r[i].userId != r[j].userId {
      assert r[j] == ts[j - 1];
      if i > 0 {
        assert r[i] == ts[i - 1];
      }
    }
  }

  /** Removal keeps the user ids unique. */
  lemma {:induction false} RemoveTypistUnique(prev: seq<Typist>, id: Id)
    requires UniqueTypists(prev)
    ensures UniqueTypists(RemoveTypist(prev, id))
  {
    if prev != [] {
      var tail := Filter(prev[1..], OtherTypist(id));
      UniqueTail(prev);
      RemoveTypistUnique(prev[1..], id);
      assert forall k :: 0 <= k < |tail| ==> tail[k] in prev[1..];
      assert forall k :: 0 <= k < |tail| ==> tail[k].userId != prev[0].userId;
      if OtherTypist(id)(prev[0]) {
        UniqueCons(prev[0], tail);
      }
    }
  }

  /** Removal works piecewise, so the remaining entries keep their order. */
  lemma RemoveTypistConcat(a: seq<Typist>, b: seq<Typist>, id: Id)
    ensures RemoveTypist(a + b, id) == RemoveTypist(a, id) + RemoveTypist(b, id)
  {
    FilterConcat(a, b, OtherTypist(id));
  }

  /** A stop after a start leaves the list as the stop alone would. */
  lemma RemoveAfterAddTypist(prev: seq<Typist>, t: Typist)
    ensures RemoveTypist(AddTypist(prev, t), t.userId) == RemoveTypist(prev, t.userId)
  {
    if forall i :: 0 <= i < |prev| ==> prev[i].userId != t.userId {
      RemoveTypistConcat(prev, [t], t.userId);
      assert Filter([t], OtherTypist(t.userId)) == [];
    }
  }

  function Names(ts: seq<Typist>): (r: seq<string>)
    ensures |r| == |ts| && forall i :: 0 <= i < |ts| ==> r[i] == ts[i].username
  {
    seq(|ts|, i requires 0 <= i < |ts| => ts[i].username)
  }

  const IsTyping := " is typing..."
  const AreTyping := " are typing..."

  /** The typing indicator: the names joined by `, `, then `is typing...`
      for one user or `are typing...` for several; nothing while the list is
      empty. */
  function TypingText(ts: seq<Typist>): (r: Option<string>)
    ensures r.None? <==> ts == []
  {
    if ts == [] then None
    else Some(Join(Names(ts), ", ") + (if |ts| == 1 then IsTyping else AreTyping))
  }

  lemma TypingTextOne(t: Typist)
    ensures TypingText([t]) == Some(t.username + IsTyping)
  {
    assert Names([t]) == [t.username];
  }

  /** With several typists whose names hold no comma, the text lists each
      of them: the part before ` are typing...` holds exactly one comma
      fewer than there are typists. */
  lemma TypingTextMany(ts: seq<Typist>)
    requires |ts| >= 2 && forall i :: 0 <= i < |ts| ==> ',' !in ts[i].username
    ensures var s := TypingText(ts).value;
      && |s| >= |AreTyping| && s[|s| - |AreTyping|..] == AreTyping
      && CountChar(s[..|s| - |AreTyping|], ',') == |ts| - 1
  {
    var names := Join(Names(ts), ", ");
    var s := TypingText(ts).value;
    assert s == names + AreTyping;
    assert s[..|s| - |AreTyping|] == names;
    JoinCountChar(Names(ts), ", ", ',');
    assert CountChar(", ", ',') == 1;
  }

  // ---------------------------------------------------------------------------
  // The screen

  /** One `socket.emit(event, data)`; None is `undefined` data. */
  datatype Emit = Emit(event: string, data: Option<Json>)

  /** One `uploadFile(roomId, formData)` request. */
  datatype Upload = Upload(roomId: Option<Json>, file: FileInfo)

  /** `room._id`. */
  function RoomIdOf(room: Json): Option<Json> {
    Get(room, "_id")
  }

  /** `{ roomId, message }`; an undefined room id is left out of the data. */
  function SendData(roomId: Option<Json>, message: string): (r: Json)
    ensures Get(r, "roomId") == roomId && Get(r, "message") == Some(JStr(message))
  {
    match roomId
    case Some(id) => JObj(map["roomId" := id, "message" := JStr(message)])
    case None => JObj(map["message" := JStr(message)])
  }

  class ChatView {
    var activeRoom: Option<Json>
    var messages: seq<Json>
    var loading: bool
    var typing: seq<Typist>
    var sidebarOpen: bool
    /** The socket emits, in order. */
    var emitted: seq<Emit>
    /** The room ids whose history was requested, in order. */
    var fetches: seq<Option<Json>>
    var uploads: seq<Upload>

    /** The typing list never holds two entries for one user. */
    ghost predicate Valid()
      reads this
    {
      UniqueTypists(typing)
    }

    constructor ()
      ensures Valid()
      ensures activeRoom.None? && messages == [] && !loading && typing == [] && !sidebarOpen
      ensures emitted == [] && fetches == [] && uploads == []
    {
      activeRoom := None;
      messages := [];
      loading := false;
      typing := [];
      sidebarOpen := false;
      emitted := [];
      fetches := [];
      uploads := [];
    }

    /** `handleSelectRoom`: leave the old room (when there is one and the
        socket is up), then switch, clear the list, and join and fetch the
        new room; the sidebar closes. */
    method SelectRoom(room: Option<Json>, socketUp: bool)
      requires Valid()
      modifies this
      ensures Valid()
      ensures activeRoom == room && messages == [] && !sidebarOpen
      ensures var leave := if old(activeRoom).Some? && socketUp then [Emit("leave-room", RoomIdOf(old(activeRoom).value))] else [];
        var join := if room.Some? && socketUp then [Emit("join-room", RoomIdOf(room.value))] else [];
        emitted == old(emitted) + leave + join
      ensures room.Some? && socketUp ==> fetches == old(fetches) + [RoomIdOf(room.value)] && loading
      ensures !(room.Some? && socketUp) ==> fetches == old(fetches) && loading == old(loading)
      ensures typing == old(typing) && uploads == old(uploads)
    {
      if activeRoom.Some? && socketUp {
        emitted := emitted + [Emit("leave-room", RoomIdOf(activeRoom.value))];
      }
      activeRoom := room;
      messages := [];
      if room.Some? && socketUp {
        emitted := emitted + [Emit("join-room", RoomIdOf(room.value))];
        loading := true;
        fetches := fetches + [RoomIdOf(room.value)];
      }
      sidebarOpen := false;
    }

    /** The end of `fetchMessages`: the history replaces the list when the
        request succeeded; loading ends either way. */
    method MessagesLoaded(result: Option<seq<Json>>)
      requires Valid()
      modifies this
      ensures Valid()
      ensures !loading
      ensures messages == (if result.Some? then result.value else old(messages))
      ensures activeRoom == old(activeRoom) && typing == old(typing) && sidebarOpen == old(sidebarOpen)
      ensures emitted == old(emitted) && fetches == old(fetches) && uploads == old(uploads)
    {
      if result.Some? {
        messages := result.value;
      }
      loading := false;
    }

    /** new-message: appended at the end, earlier messages unchanged. */
    method NewMessage(msg: Json)
      requires Valid()
      modifies this
      ensures Valid()
      ensures messages == old(messages) + [msg]
      ensures activeRoom == old(activeRoom) && loading == old(loading) && typing == old(typing)
      ensures sidebarOpen == old(sidebarOpen) && emitted == old(emitted) && fetches == old(fetches) && uploads == old(uploads)
    {
      messages := messages + [msg];
    }

    /** user-typing. */
    method UserTyping(t: Typist)
      requires Valid()
      modifies this
      ensures Valid()
      ensures typing == AddTypist(old(typing), t)
      ensures exists i :: 0 <= i < |typing| && typing[i].userId == t.userId
      ensures activeRoom == old(activeRoom) && messages == old(messages) && loading == old(loading)
      ensures sidebarOpen == old(sidebarOpen) && emitted == old(emitted) && fetches == old(fetches) && uploads == old(uploads)
    {
      AddTypistUnique(typing, t);
      typing := AddTypist(typing, t);
    }

    /** user-stop-typing. */
    method UserStopTyping(id: Id)
      requires Valid()
      modifies this
      ensures Valid()
      ensures typing == RemoveTypist(old(typing), id)
      ensures forall i :: 0 <= i < |typing| ==> typing[i].userId != id
      ensures activeRoom == old(activeRoom) && messages == old(messages) && loading == old(loading)
      ensures sidebarOpen == old(sidebarOpen) && emitted == old(emitted) && fetches == old(fetches) && uploads == old(uploads)
    {
      RemoveTypistUnique(typing, id);
      typing := RemoveTypist(typing, id);
    }

    /** `handleSend`: nothing without an active room and a socket;
        otherwise send-message `{ roomId, message }`, then stop-typing for
        the same room. */
    method Send(message: string, socketUp: bool)
      requires Valid()
      modifies this
      ensures Valid()
      ensures old(activeRoom).None? || !socketUp ==> emitted == old(emitted)
      ensures old(activeRoom).Some? && socketUp ==>
        var id := RoomIdOf(old(activeRoom).value);
        emitted == old(emitted) + [Emit("send-message", Some(SendData(id, message))), Emit("stop-typing", id)]
      ensures activeRoom == old(activeRoom) && messages == old(messages) && loading == old(loading) && typing == old(typing)
      ensures sidebarOpen == old(sidebarOpen) && fetches == old(fetches) && uploads == old(uploads)
    {
      if activeRoom.None? || !socketUp {
        return;
      }
      var id := RoomIdOf(activeRoom.value);
      emitted := emitted + [Emit("send-message", Some(SendData(id, message))), Emit("stop-typing", id)];
    }

    /** `handleFileUpload`: the file goes to the active room; without one
        nothing is requested. */
    method FileUpload(file: FileInfo)
      requires Valid()
      modifies this
      ensures Valid()
      ensures uploads == if old(activeRoom).Some? then old(uploads) + [Upload(RoomIdOf(old(activeRoom).value), file)] else old(uploads)
      ensures activeRoom == old(activeRoom) && messages == old(messages) && loading == old(loading) && typing == old(typing)
      ensures sidebarOpen == old(sidebarOpen) && emitted == old(emitted) && fetches == old(fetches)
    {
      if activeRoom.Some? {
        uploads := uploads + [Upload(RoomIdOf(activeRoom.value), file)];
      }
    }

    /** The mobile sidebar toggle. */
    method ToggleSidebar()
      requires Valid()
      modifies this
      ensures Valid()
      ensures sidebarOpen == !old(sidebarOpen)
      ensures activeRoom == old(activeRoom) && messages == old(messages) && loading == old(loading) && typing == old(typing)
      ensures emitted == old(emitted) && fetches == old(fetches) && uploads == old(uploads)
    {
      sidebarOpen := !sidebarOpen;
    }
  }

  /** What the composer sends into a room is stored by the server: text
      typed within the input's limit that is not blank reaches the
      send-message handler trimmed, and the handler saves it as typed into
      that room, from the sending user, whenever the write succeeds. */
  lemma ComposedTextIsStored(u: User, roomId: Id, typed: string, id: Id, now: int)
    requires Utf16Length(typed) <= MaxInput && !AllSpace(typed) && u.username != ""
    ensures var plan := PlanSend(u, Some(SendData(Some(JStr(roomId)), Trim(typed))), id, now, true);
      && plan.Save?
      && plan.msg.message == Trim(typed) && plan.msg.room == roomId
      && plan.msg.senderId == u.id && plan.msg.senderNick == u.username
  {
    SentTextFits(typed);
    TrimmedTextIsStored(u, roomId, Trim(typed), id, now);
  }

  lemma TrimmedTextIsStored(u: User, roomId: Id, text: string, id: Id, now: int)
    requires Trimmed(text) && text != "" && Utf16Length(text) <= MaxMessageLength && u.username != ""
    ensures var plan := PlanSend(u, Some(SendData(Some(JStr(roomId)), text)), id, now, true);
      && plan.Save?
      && plan.msg.message == text && plan.msg.room == roomId
      && plan.msg.senderId == u.id && plan.msg.senderNick == u.username
  {
    TrimOfTrimmed(text);
    SendAccepted(u, SendData(Some(JStr(roomId)), text), roomId, text, id, now);
  }
}
