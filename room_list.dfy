/** The room sidebar of the chat client: creating a room and joining a room
    before selecting it. Rooms are the JSON documents the server sends. */
module RoomList {
  import opened Wrappers
  import opened Strings
  import opened Wire
  import opened Models
  import opened Store
  import opened RoomController

  // ---------------------------------------------------------------------------
  // The participant check

  /** `(p._id || p).toString()` for the entry shapes the server sends: a raw
      id string, or an expanded user whose `_id` is a non-empty string. */
  function EntryId(p: Json): Option<string> {
    if p.JStr? then Some(p.s)
    else if p.JObj? then
      var id := AsString(Get(p, "_id"));
      if id.Some? && id.value != "" then id else None
    else None
  }

  /** `entries.some(p => (p._id || p).toString() === me)`. */
  predicate Lists(entries: seq<Json>, me: Id) {
    exists i :: 0 <= i < |entries| && EntryId(entries[i]) == Some(me)
  }

  /** `room.participants?.some(p => (p._id || p).toString() === user._id.toString())`;
      a missing list counts as not a participant. */
  predicate IsParticipant(room: Json, me: Id) {
    match Get(room, "participants")
    case Some(JArr(ps)) => Lists(ps, me)
    case _ => false
  }

  lemma ListsCons(head: Json, rest: seq<Json>, me: Id)
    ensures Lists([head] + rest, me) <==> EntryId(head) == Some(me) || Lists(rest, me)
  {
    var js := [head] + rest;
    if EntryId(head) == Some(me) {
      assert js[0] == head;
    }
    if Lists(rest, me) {
      var i :| 0 <= i < |rest| && EntryId(rest[i]) == Some(me);
      assert js[i + 1] == rest[i];
    }
    if Lists(js, me) {
      var i :| 0 <= i < |js| && EntryId(js[i]) == Some(me);
      if i > 0 {
        assert rest[i - 1] == js[i];
      }
    }
  }

  lemma {:induction false} RawEntries(ps: seq<Id>, me: Id)
    ensures Lists(IdList(ps), me) <==> me in ps
  {
    var js := IdList(ps);
    if me in ps {
      var k :| 0 <= k < |ps| && ps[k] == me;
      assert EntryId(js[k]) == Some(me);
    }
  }

  /** A room with raw participant ids, as `createRoom` returns it, lists the
      user exactly when the stored room does. */
  lemma RawRoomParticipant(r: Room, me: Id)
    ensures IsParticipant(RawRoomDoc(r), me) <==> me in r.participants
  {
    RawEntries(r.participants, me);
    assert Get(RawRoomDoc(r), "participants") == Some(JArr(IdList(r.participants)));
  }

  lemma {:induction false} PopulatedEntries(users: seq<User>, ps: seq<Id>, me: Id)
    requires me != ""
    ensures Lists(PopulatedParticipants(users, ps), me) <==> me in ps && UserById(users, me).Some?
  {
    if ps != [] {
      var js := PopulatedParticipants(users, ps);
      var rest := PopulatedParticipants(users, ps[1..]);
      PopulatedEntries(users, ps[1..], me);
      assert me in ps <==> me == ps[0] || me in ps[1..] by {
        assert ps == [ps[0]] + ps[1..];
      }
      match UserById(users, ps[0])
      case None =>
        assert js == rest;
      case Some(u) =>
        var head := ParticipantDoc(u);
        assert js == [head] + rest;
        assert Get(head, "_id") == Some(JStr(ps[0]));
        assert EntryId(head) == if ps[0] != "" then Some(ps[0]) else None;
        ListsCons(head, rest, me);
    }
  }

  /** A room with expanded participants, as `getRooms` returns it, lists the
      user exactly when the stored room does and the account still exists:
      expanded and raw entries are recognised alike. */
  lemma PopulatedRoomParticipant(users: seq<User>, r: Room, me: Id)
    requires me != ""
    ensures IsParticipant(PopulatedRoomDoc(users, r), me) <==> me in r.participants && UserById(users, me).Some?
  {
    PopulatedEntries(users, r.participants, me);
    assert Get(PopulatedRoomDoc(users, r), "participants") == Some(JArr(PopulatedParticipants(users, r.participants)));
  }

  // ---------------------------------------------------------------------------
  // The sidebar

  /** The body `createRoom(newRoom)` posts. */
  datatype RoomForm = RoomForm(name: string, description: string)

  /** The name input's `required minLength={2}`: the browser refuses to
      submit a shorter name, so `handleCreate` never runs for it. */
  predicate NameSubmittable(name: string) {
    Utf16Length(name) >= MinRoomName
  }

  /** A form that can reach the create endpoint: within the inputs'
      `maxLength` limits, past the browser's name checks and not blank. */
  predicate Postable(f: RoomForm) {
    && MinRoomName <= Utf16Length(f.name) <= MaxRoomName
    && Utf16Length(f.description) <= MaxDescription
    && !AllSpace(f.name)
  }

  class Sidebar {
    var rooms: seq<Json>
    var showCreate: bool
    var form: RoomForm
    var creating: bool
    /** The bodies posted to the create endpoint, in order. */
    var created: seq<RoomForm>
    /** The ids the join endpoint was called for, in order. */
    var joined: seq<Option<Json>>
    /** The rooms handed to `onSelectRoom`, in order. */
    var selected: seq<Json>

    /** The typed fields stay within the inputs' `maxLength` (50 and 200
        UTF-16 units), no request is pending between events, and every
        posted form was postable. */
    ghost predicate Valid()
      reads this
    {
      && Utf16Length(form.name) <= MaxRoomName
      && Utf16Length(form.description) <= MaxDescription
      && !creating
      && forall i :: 0 <= i < |created| ==> Postable(created[i])
    }

    constructor ()
      ensures Valid()
      ensures rooms == [] && !showCreate && form == RoomForm("", "") && !creating
      ensures created == [] && joined == [] && selected == []
    {
      rooms := [];
      showCreate := false;
      form := RoomForm("", "");
      creating := false;
      created := [];
      joined := [];
      selected := [];
    }

    /** Submitting the create form, which is rendered only while
        `showCreate` holds; `result` is the created room, or None when the
        request fails. A name the browser refuses (shorter than 2 units)
        never reaches `handleCreate`, and a name of only white space
        (`!name.trim()`) posts nothing there; either way nothing changes.
        Otherwise the form is posted as typed, untrimmed, and `creating` is
        off again at the end. */
    method Create(result: Option<Json>)
      requires Valid() && showCreate
      modifies this
      ensures Valid()
      ensures !NameSubmittable(old(form.name)) || AllSpace(old(form.name)) ==>
        rooms == old(rooms) && showCreate == old(showCreate) && form == old(form) && created == old(created)
        && selected == old(selected)
      ensures NameSubmittable(old(form.name)) && !AllSpace(old(form.name)) ==>
        created == old(created) + [old(form)] && Postable(old(form))
      ensures NameSubmittable(old(form.name)) && !AllSpace(old(form.name)) && result.Some? ==>
        rooms == [result.value] + old(rooms) && form == RoomForm("", "") && !showCreate
        && selected == old(selected) + [result.value]
      ensures NameSubmittable(old(form.name)) && !AllSpace(old(form.name)) && result.None? ==>
        rooms == old(rooms) && form == old(form) && showCreate == old(showCreate) && selected == old(selected)
      ensures joined == old(joined)
    {
      if !NameSubmittable(form.name) || AllSpace(form.name) {
        return;
      }
      creating := true;
      created := created + [form];
      if result.Some? {
        rooms := [result.value] + rooms;
        form := RoomForm("", "");
        showCreate := false;
        selected := selected + [result.value];
      }
      creating := false;
    }

    /** `handleJoinAndSelect`; `joinOk` is false when the join request fails.
        The join endpoint is called only for a room that does not already
        list the user, and a failed join selects nothing. */
    method JoinAndSelect(room: Json, me: Id, joinOk: bool)
      requires Valid()
      modifies this
      ensures Valid()
      ensures IsParticipant(room, me) ==> joined == old(joined) && selected == old(selected) + [room]
      ensures !IsParticipant(room, me) ==> joined == old(joined) + [Get(room, "_id")]
      ensures !IsParticipant(room, me) ==> selected == (if joinOk then old(selected) + [room] else old(selected))
      ensures rooms == old(rooms) && showCreate == old(showCreate) && form == old(form)
      ensures creating == old(creating) && created == old(created)
    {
      if !IsParticipant(room, me) {
        joined := joined + [Get(room, "_id")];
        if !joinOk {
          return;
        }
      }
      selected := selected + [room];
    }

    /** The header's create button: shows or hides the create form. */
    method ToggleCreate()
      requires Valid()
      modifies this
      ensures Valid()
      ensures showCreate == !old(showCreate)
      ensures rooms == old(rooms) && form == old(form) && creating == old(creating)
      ensures created == old(created) && joined == old(joined) && selected == old(selected)
    {
      showCreate := !showCreate;
    }

    /** The name input: replaces the typed name, keeping the description.
        The input's `maxLength={50}` keeps the typed name within 50 units. */
    method EditName(name: string)
      requires Valid() && Utf16Length(name) <= MaxRoomName
      modifies this
      ensures Valid()
      ensures form == RoomForm(name, old(form).description)
      ensures rooms == old(rooms) && showCreate == old(showCreate) && creating == old(creating)
      ensures created == old(created) && joined == old(joined) && selected == old(selected)
    {
      form := form.(name := name);
    }

    /** The description input: replaces the typed description, keeping
        the name. The input's `maxLength={200}` keeps it within 200 units. */
    method EditDescription(description: string)
      requires Valid() && Utf16Length(description) <= MaxDescription
      modifies this
      ensures Valid()
      ensures form == RoomForm(old(form).name, description)
      ensures rooms == old(rooms) && showCreate == old(showCreate) && creating == old(creating)
      ensures created == old(created) && joined == old(joined) && selected == old(selected)
    {
      form := form.(description := description);
    }
  }

  /** A room the user has just created lists the user, so selecting it
      straight away calls no join: the creator is its only participant. */
  lemma CreatedRoomNeedsNoJoin(rooms: seq<Room>, me: User, name: string, description: Option<string>, id: Id, now: int)
    ensures var w := PlanCreateRoom(rooms, me, name, description, id, now);
      w.Add? ==> IsParticipant(RawRoomDoc(w.room), me.id)
  {
    var w := PlanCreateRoom(rooms, me, name, description, id, now);
    if w.Add? {
      RawRoomParticipant(w.room, me.id);
    }
  }
}
