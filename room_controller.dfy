/** Persisted rooms: creation with its validator and name-uniqueness check,
    the listings, and joining and leaving a room's participant list. */
module RoomController {
  import opened Wrappers
  import opened Strings
  import opened Wire
  import opened Http
  import opened Seqs
  import opened Models
  import opened Store

  // ---------------------------------------------------------------------------
  // Participant lists

  /** `room.participants.some(p => p === u) || room.participants.push(u)`:
      the user is appended only when absent. */
  function AddParticipant(ps: seq<Id>, u: Id): (r: seq<Id>)
    ensures u in r
    ensures u in ps ==> r == ps
    ensures u !in ps ==> r == ps + [u]
  {
    if u in ps then ps else ps + [u]
  }

  /** Adding twice is adding once. */
  lemma AddParticipantIdempotent(ps: seq<Id>, u: Id)
    ensures AddParticipant(AddParticipant(ps, u), u) == AddParticipant(ps, u)
  {
  }

  /** Adding never repeats the user, so a list without repetitions keeps none. */
  lemma AddParticipantDistinct(ps: seq<Id>, u: Id)
    requires Distinct(ps)
    ensures Distinct(AddParticipant(ps, u))
  {
  }

  function NotUser(u: Id): Id -> bool {
    (p: Id) => p != u
  }

  /** `room.participants.filter(p => p !== u)`: every occurrence of the user
      goes, every other entry stays, in order. */
  function RemoveParticipant(ps: seq<Id>, u: Id): (r: seq<Id>)
    ensures u !in r
    ensures forall x :: x != u ==> multiset(r)[x] == multiset(ps)[x]
    ensures u !in ps ==> r == ps
  {
    RemoveParticipantFacts(ps, u);
    Filter(ps, NotUser(u))
  }

  lemma RemoveParticipantFacts(ps: seq<Id>, u: Id)
    ensures u !in Filter(ps, NotUser(u))
    ensures forall x :: x != u ==> multiset(Filter(ps, NotUser(u)))[x] == multiset(ps)[x]
    ensures u !in ps ==> Filter(ps, NotUser(u)) == ps
  {
    var r := Filter(ps, NotUser(u));
    FilterMembers(ps, NotUser(u), u);
    forall x | x != u ensures multiset(r)[x] == multiset(ps)[x] {
      FilterCount(ps, NotUser(u), x);
    }
    if u !in ps {
      FilterAllPass(ps, NotUser(u));
    }
  }

  /** Removal works piecewise, so the survivors keep their relative order. */
  lemma RemoveParticipantConcat(a: seq<Id>, b: seq<Id>, u: Id)
    ensures RemoveParticipant(a + b, u) == RemoveParticipant(a, u) + RemoveParticipant(b, u)
  {
    FilterConcat(a, b, NotUser(u));
  }

  /** Leaving after joining leaves the list as a plain leave would. */
  lemma RemoveAfterAdd(ps: seq<Id>, u: Id)
    ensures RemoveParticipant(AddParticipant(ps, u), u) == RemoveParticipant(ps, u)
  {
    if u !in ps {
      RemoveParticipantConcat(ps, [u], u);
      assert Filter([u], NotUser(u)) == [];
    }
  }

  // ---------------------------------------------------------------------------
  // Creation

  datatype RoomChecked = RoomChecked(errors: seq<string>, name: string, description: Option<string>)

  const NameLengthError := "Room name must be between 2 and 50 characters"
  const DescriptionLengthError := "Description cannot exceed 200 characters"

  predicate NameLengthOk(name: string) {
    MinRoomName <= ValidatorLength(name) <= MaxRoomName
  }

  predicate DescriptionLengthOk(description: Option<string>) {
    description.Some? ==> ValidatorLength(description.value) <= MaxDescription
  }

  /** `createRoomValidation`: the name is trimmed (absent reads as empty)
      and must have 2 to 50 characters; a present description is trimmed and
      must have at most 200. */
  function CreateRoomValidation(name: Option<string>, description: Option<string>): (r: RoomChecked)
    ensures r.name == Trim(name.GetOr(""))
    ensures r.description == (if description.Some? then Some(Trim(description.value)) else None)
    ensures r.errors == [] <==> NameLengthOk(r.name) && DescriptionLengthOk(r.description)
  {
    var n := Trim(name.GetOr(""));
    var d := if description.Some? then Some(Trim(description.value)) else None;
    var e1 := if NameLengthOk(n) then [] else [NameLengthError];
    var e2 := if DescriptionLengthOk(d) then [] else [DescriptionLengthError];
    RoomChecked(e1 + e2, n, d)
  }

  /** Each rule reports its own message, and only when it fails. */
  lemma CreateRoomValidationMessages(name: Option<string>, description: Option<string>)
    ensures var r := CreateRoomValidation(name, description);
      && (NameLengthError in r.errors <==> !NameLengthOk(r.name))
      && (DescriptionLengthError in r.errors <==> !DescriptionLengthOk(r.description))
  {
    var r := CreateRoomValidation(name, description);
    var e1 := if NameLengthOk(r.name) then [] else [NameLengthError];
    var e2 := if DescriptionLengthOk(r.description) then [] else [DescriptionLengthError];
    assert r.errors == e1 + e2;
    RoomErrorsDiffer();
    assert NameLengthError !in e2 && DescriptionLengthError !in e1;
    assert NameLengthError in r.errors <==> NameLengthError in e1;
    assert DescriptionLengthError in r.errors <==> DescriptionLengthError in e2;
  }

  lemma RoomErrorsDiffer()
    ensures NameLengthError != DescriptionLengthError
  {
    assert |NameLengthError| == 45 && |DescriptionLengthError| == 40;
  }

  /** A room as a JSON document with its creator and participant references
      rendered as given. */
  function RoomDoc(r: Room, createdBy: Json, participants: seq<Json>): (j: Json)
  {
    JObj(map["_id" := JStr(r.id), "name" := JStr(r.name), "description" := JStr(r.description),
             "createdBy" := createdBy, "participants" := JArr(participants),
             "createdAt" := JNum(r.createdAt), "updatedAt" := JNum(r.updatedAt)])
  }

  /** A room document with its references unexpanded. */
  function RawRoomDoc(r: Room): Json {
    RoomDoc(r, JStr(r.createdBy), IdList(r.participants))
  }

  /** Unexpanded references: each id as a string. */
  function IdList(ps: seq<Id>): (r: seq<Json>)
    ensures |r| == |ps| && forall i :: 0 <= i < |ps| ==> r[i] == JStr(ps[i])
  {
    seq(|ps|, i requires 0 <= i < |ps| => JStr(ps[i]))
  }

  /** A participant as `populate('participants', 'username isOnline')` renders it. */
  function ParticipantDoc(u: User): Json {
    JObj(map["_id" := JStr(u.id), "username" := JStr(u.username), "isOnline" := JBool(u.isOnline)])
  }

  function UserExists(users: seq<User>): Id -> bool {
    (p: Id) => UserById(users, p).Some?
  }

  /** `populate('participants', 'username isOnline')`: each stored
      participant that still exists becomes its `{ _id, username, isOnline }`;
      missing users are dropped (see PopulatedParticipantsKept). */
  function PopulatedParticipants(users: seq<User>, ps: seq<Id>): (r: seq<Json>)
    ensures |r| <= |ps|
    ensures forall i :: 0 <= i < |r| ==> Keys(r[i]) == {"_id", "username", "isOnline"}
  {
    if ps == [] then []
    else
      var rest := PopulatedParticipants(users, ps[1..]);
      match UserById(users, ps[0])
      case None => rest
      case Some(u) => [ParticipantDoc(u)] + rest
  }

  /** `r` renders the ids `kept` one for one, each from its stored user. */
  predicate RenderedFrom(users: seq<User>, r: seq<Json>, kept: seq<Id>) {
    && |r| == |kept|
    && forall k :: 0 <= k < |r| ==>
         UserById(users, kept[k]).Some? && r[k] == ParticipantDoc(UserById(users, kept[k]).value)
  }

  lemma RenderedCons(users: seq<User>, r: seq<Json>, kept: seq<Id>)
    requires r != [] && kept != [] && RenderedFrom(users, r[1..], kept[1..])
    requires UserById(users, kept[0]).Some? && r[0] == ParticipantDoc(UserById(users, kept[0]).value)
    ensures RenderedFrom(users, r, kept)
  {
    forall k | 1 <= k < |r|
      ensures UserById(users, kept[k]).Some? && r[k] == ParticipantDoc(UserById(users, kept[k]).value)
    {
      assert r[k] == r[1..][k - 1] && kept[k] == kept[1..][k - 1];
    }
  }

  /** The populated list is exactly the participants that still exist, in
      their stored order, each rendered from the stored user. */
  lemma {:induction false} PopulatedParticipantsKept(users: seq<User>, ps: seq<Id>)
    ensures RenderedFrom(users, PopulatedParticipants(users, ps), Filter(ps, UserExists(users)))
  {
    if ps != [] {
      PopulatedParticipantsKept(users, ps[1..]);
      var rest := PopulatedParticipants(users, ps[1..]);
      var keptRest := Filter(ps[1..], UserExists(users));
      match UserById(users, ps[0])
      case Some(u) =>
        var r, kept := PopulatedParticipants(users, ps), Filter(ps, UserExists(users));
        assert kept == [ps[0]] + keptRest;
        assert r == [ParticipantDoc(u)] + rest;
        assert r[1..] == rest && kept[1..] == keptRest;
        RenderedCons(users, r, kept);
      case None =>
        assert Filter(ps, UserExists(users)) == keptRest;
    }
  }

  /** The fully populated room of `getRooms` and `getRoom`. */
  function PopulatedRoomDoc(users: seq<User>, r: Room): Json {
    RoomDoc(r, PopulatedUser(users, r.createdBy), PopulatedParticipants(users, r.participants))
  }

  datatype RoomWrite = Keep(response: Response) | Add(room: Room, response: Response)

  /** `createRoom` behind `protect` and `createRoomValidation`: `name` and
      `description` are the sanitized fields, `me` is `req.user`. */
  function PlanCreateRoom(rooms: seq<Room>, me: User, name: string, description: Option<string>, id: Id, now: int): (r: RoomWrite)
    ensures RoomIndexByName(rooms, name).Some? ==> r == Keep(Failure(400, "Room with this name already exists"))
    ensures r.Add? ==>
      && RoomIndexByName(rooms, name).None?
      && ValidRoom(r.room) && r.room.id == id && r.room.name == Trim(name)
      && r.room.description == Trim(description.GetOr(""))
      && r.room.createdBy == me.id && r.room.participants == [me.id]
      && r.response == Success(201, RawRoomDoc(r.room))
    ensures RoomIndexByName(rooms, name).None? ==>
      (r.Add? <==> AcceptsRoom(RoomDraft(Some(name), Some(description.GetOr("")), Some(me.id), [me.id])))
    ensures r.Keep? && RoomIndexByName(rooms, name).None? ==> r.response == ToErrorHandler
  {
    if RoomIndexByName(rooms, name).Some? then Keep(Failure(400, "Room with this name already exists"))
    else match NewRoom(RoomDraft(Some(name), Some(description.GetOr("")), Some(me.id), [me.id]), id, now)
      case None => Keep(ToErrorHandler)
      case Some(room) => Add(room, Success(201, RawRoomDoc(room)))
  }

  /** A trimmed name (as every validated name is) is stored unchanged, so
      the created room is the one found under that name afterwards: the
      uniqueness check before the insert makes it the only one. */
  lemma CreatedRoomIsFoundByName(rooms: seq<Room>, me: User, name: string, description: Option<string>, id: Id, now: int)
    requires Trimmed(name)
    ensures var r := PlanCreateRoom(rooms, me, name, description, id, now);
      r.Add? ==> RoomIndexByName(rooms + [r.room], name) == Some(|rooms|)
  {
    var r := PlanCreateRoom(rooms, me, name, description, id, now);
    if r.Add? {
      TrimOfTrimmed(name);
      assert r.room.name == name;
      assert RoomIndexByName(rooms, name).None?;
      NameFoundAtEnd(rooms, r.room, name);
    }
  }

  lemma NameFoundAtEnd(rooms: seq<Room>, room: Room, name: string)
    requires RoomIndexByName(rooms, name).None? && room.name == name
    ensures RoomIndexByName(rooms + [room], name) == Some(|rooms|)
  {
    var all := rooms + [room];
    assert forall j :: 0 <= j < |rooms| ==> all[j] == rooms[j];
    assert all[|rooms|] == room;
  }

  /** `POST /api/rooms`. */
  method CreateRoom(db: Db, me: User, name: Option<string>, description: Option<string>, id: Id, now: int)
    returns (resp: Response)
    requires db.Valid() && UserById(db.users, me.id) == Some(me)
    requires CreateRoomValidation(name, description).errors == []
    modifies db
    ensures db.Valid()
    ensures var c := CreateRoomValidation(name, description);
      var plan := PlanCreateRoom(old(db.rooms), me, c.name, c.description, id, now);
      && resp == plan.response
      && (plan.Keep? ==> db.rooms == old(db.rooms))
      && (plan.Add? ==> db.rooms == old(db.rooms) + [plan.room])
    ensures db.users == old(db.users) && db.messages == old(db.messages)
  {
    var c := CreateRoomValidation(name, description);
    var plan := PlanCreateRoom(db.rooms, me, c.name, c.description, id, now);
    if plan.Add? {
      db.AddRoom(plan.room);
    }
    resp := plan.response;
  }

  // ---------------------------------------------------------------------------
  // Listings

  function NewestFirstKey(r: Room): int { -r.createdAt }

  /** `Room.find().sort({ createdAt: -1 })`: every room, newest first. */
  function NewestFirst(rooms: seq<Room>): (r: seq<Room>)
    ensures multiset(r) == multiset(rooms)
    ensures forall i, j :: 0 <= i < j < |r| ==> r[i].createdAt >= r[j].createdAt
  {
    var s := SortBy(rooms, NewestFirstKey);
    assert forall i, j :: 0 <= i < j < |s| ==> NewestFirstKey(s[i]) <= NewestFirstKey(s[j]);
    s
  }

  /** `getRooms`. */
  function GetRooms(rooms: seq<Room>, users: seq<User>): (r: Response)
    ensures var ordered := NewestFirst(rooms);
      r == Success(200, JArr(seq(|ordered|, i requires 0 <= i < |ordered| => PopulatedRoomDoc(users, ordered[i]))))
  {
    var ordered := NewestFirst(rooms);
    Success(200, JArr(seq(|ordered|, i requires 0 <= i < |ordered| => PopulatedRoomDoc(users, ordered[i]))))
  }

  /** The populated documents of the stored rooms. */
  function RoomDocs(users: seq<User>, rooms: seq<Room>): set<Json> {
    set room | room in rooms :: PopulatedRoomDoc(users, room)
  }

  /** What `getRooms` sends: one entry per stored room, the document of every
      stored room among them and nothing else, newest first by the
      `createdAt` each entry carries. */
  lemma GetRoomsListing(rooms: seq<Room>, users: seq<User>, items: seq<Json>)
    requires GetRooms(rooms, users) == Success(200, JArr(items))
    ensures |items| == |rooms|
    ensures forall room :: room in rooms ==> PopulatedRoomDoc(users, room) in items
    ensures forall i :: 0 <= i < |items| ==> items[i] in RoomDocs(users, rooms)
    ensures forall i, j :: 0 <= i < j < |items| ==> NumAt(items[i], "createdAt") >= NumAt(items[j], "createdAt")
  {
    var ordered := NewestFirst(rooms);
    var docs := seq(|ordered|, i requires 0 <= i < |ordered| => PopulatedRoomDoc(users, ordered[i]));
    SuccessData(200, JArr(items), JArr(docs));
    assert |ordered| == |rooms| by {
      assert |multiset(ordered)| == |multiset(rooms)|;
    }
    forall room | room in rooms
      ensures PopulatedRoomDoc(users, room) in items
    {
      assert room in multiset(ordered);
      var i :| 0 <= i < |ordered| && ordered[i] == room;
      assert items[i] == PopulatedRoomDoc(users, room);
    }
    forall i | 0 <= i < |items|
      ensures items[i] in RoomDocs(users, rooms)
    {
      assert ordered[i] in multiset(rooms);
      assert ordered[i] in rooms && items[i] == PopulatedRoomDoc(users, ordered[i]);
    }
    forall i, j | 0 <= i < j < |items|
      ensures NumAt(items[i], "createdAt") >= NumAt(items[j], "createdAt")
    {
      RoomDocCreatedAt(users, ordered[i]);
      RoomDocCreatedAt(users, ordered[j]);
    }
  }

  lemma RoomDocCreatedAt(users: seq<User>, r: Room)
    ensures NumAt(PopulatedRoomDoc(users, r), "createdAt") == r.createdAt
  {
  }

  /** `getRoom`. */
  function GetRoom(rooms: seq<Room>, users: seq<User>, id: Id): (r: Response)
    ensures RoomIndexById(rooms, id).None? ==> r == Failure(404, "Room not found")
    ensures RoomIndexById(rooms, id).Some? ==> r == Success(200, PopulatedRoomDoc(users, rooms[RoomIndexById(rooms, id).value]))
  {
    match RoomIndexById(rooms, id)
    case None => Failure(404, "Room not found")
    case Some(i) => Success(200, PopulatedRoomDoc(users, rooms[i]))
  }

  /** A successful `getRoom` answers with the document of the room asked for. */
  lemma GetRoomAnswersId(rooms: seq<Room>, users: seq<User>, id: Id, doc: Json)
    requires GetRoom(rooms, users, id) == Success(200, doc)
    ensures RoomIndexById(rooms, id).Some?
    ensures Get(doc, "_id") == Some(JStr(id))
  {
    assert Get(JObj(map["success" := JBool(true), "data" := doc]), "success") == Some(JBool(true));
    var room := rooms[RoomIndexById(rooms, id).value];
    SuccessData(200, doc, PopulatedRoomDoc(users, room));
  }

  // ---------------------------------------------------------------------------
  // Joining and leaving

  /** `POST /api/rooms/:id/join`: idempotent; the room is saved only when
      the user was missing, and the reply shows the participants expanded. */
  method JoinRoom(db: Db, me: User, id: Id, now: int) returns (resp: Response)
    requires db.Valid() && UserById(db.users, me.id) == Some(me)
    modifies db
    ensures db.Valid()
    ensures db.users == old(db.users) && db.messages == old(db.messages)
    ensures RoomIndexById(old(db.rooms), id).None? ==> db.rooms == old(db.rooms) && resp == Failure(404, "Room not found")
    ensures RoomIndexById(old(db.rooms), id).Some? ==>
      var i := RoomIndexById(old(db.rooms), id).value;
      var room := old(db.rooms)[i];
      && (me.id in room.participants ==> db.rooms == old(db.rooms))
      && (me.id !in room.participants ==> db.rooms == old(db.rooms)[i := WithParticipants(room, room.participants + [me.id], now)])
      && me.id in db.rooms[i].participants
      && resp == Success(200, RoomDoc(db.rooms[i], JStr(room.createdBy), PopulatedParticipants(db.users, db.rooms[i].participants)))
  {
    var found := RoomIndexById(db.rooms, id);
    if found.None? {
      return Failure(404, "Room not found");
    }
    var i := found.value;
    var room := db.rooms[i];
    if me.id !in room.participants {
      room := WithParticipants(room, AddParticipant(room.participants, me.id), now);
      db.PutRoom(i, room);
    }
    resp := Success(200, RoomDoc(room, JStr(room.createdBy), PopulatedParticipants(db.users, room.participants)));
  }

  /** `POST /api/rooms/:id/leave`: removes every occurrence of the user and
      succeeds whether or not the user was a participant. A user who was not
      listed leaves the filtered array equal to the stored one, so the save
      writes nothing and `updatedAt` is kept. */
  method LeaveRoom(db: Db, me: User, id: Id, now: int) returns (resp: Response)
    requires db.Valid() && UserById(db.users, me.id) == Some(me)
    modifies db
    ensures db.Valid()
    ensures db.users == old(db.users) && db.messages == old(db.messages)
    ensures RoomIndexById(old(db.rooms), id).None? ==> db.rooms == old(db.rooms) && resp == Failure(404, "Room not found")
    ensures RoomIndexById(old(db.rooms), id).Some? ==>
      var i := RoomIndexById(old(db.rooms), id).value;
      var room := old(db.rooms)[i];
      && (me.id !in room.participants ==> db.rooms == old(db.rooms))
      && (me.id in room.participants ==>
            db.rooms == old(db.rooms)[i := WithParticipants(room, RemoveParticipant(room.participants, me.id), now)])
      && me.id !in db.rooms[i].participants
      && resp == Success(200, JObj(map["message" := JStr("Left room successfully")]))
  {
    var found := RoomIndexById(db.rooms, id);
    if found.None? {
      return Failure(404, "Room not found");
    }
    var i := found.value;
    var room := db.rooms[i];
    if me.id in room.participants {
      var left := RemoveParticipant(room.participants, me.id);
      RemoveParticipantFacts(room.participants, me.id);
      db.PutRoom(i, WithParticipants(room, left, now));
    }
    resp := Success(200, JObj(map["message" := JStr("Left room successfully")]));
  }
}
