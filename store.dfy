/** The document store: users, rooms and messages as sequences in insertion
    order, with the lookups and updates the handlers issue against them. */
module Store {
  import opened Wrappers
  import opened Wire
  import opened Seqs
  import opened Models

  class Db {
    var users: seq<User>
    var rooms: seq<Room>
    var messages: seq<Message>

    /** Every stored room and message passed its schema when it was written. */
    ghost predicate Valid()
      reads this
    {
      && (forall i :: 0 <= i < |rooms| ==> ValidRoom(rooms[i]))
      && (forall i :: 0 <= i < |messages| ==> ValidMessage(messages[i]))
    }

    constructor ()
      ensures Valid()
      ensures users == [] && rooms == [] && messages == []
    {
      users := [];
      rooms := [];
      messages := [];
    }

    /** `Message.create`'s insert of a document that passed the schema. */
    method AddMessage(m: Message)
      requires Valid() && ValidMessage(m)
      modifies this
      ensures Valid()
      ensures messages == old(messages) + [m] && users == old(users) && rooms == old(rooms)
    {
      messages := messages + [m];
    }

    /** `User.create`'s insert of a new account. */
    method AddUser(u: User)
      requires Valid()
      modifies this
      ensures Valid()
      ensures users == old(users) + [u] && rooms == old(rooms) && messages == old(messages)
    {
      users := users + [u];
    }

    /** `Room.create`'s insert of a document that passed the schema. */
    method AddRoom(r: Room)
      requires Valid() && ValidRoom(r)
      modifies this
      ensures Valid()
      ensures rooms == old(rooms) + [r] && users == old(users) && messages == old(messages)
    {
      rooms := rooms + [r];
    }

    /** `room.save()` of the room at position `i`. */
    method PutRoom(i: nat, r: Room)
      requires Valid() && i < |rooms| && ValidRoom(r)
      modifies this
      ensures Valid()
      ensures rooms == old(rooms)[i := r] && users == old(users) && messages == old(messages)
    {
      rooms := rooms[i := r];
    }

    /** `User.findByIdAndUpdate(id, { isOnline: online })`. */
    method SetPresence(id: Id, online: bool)
      modifies this
      ensures users == SetOnline(old(users), id, online)
      ensures rooms == old(rooms) && messages == old(messages)
      ensures old(Valid()) ==> Valid()
    {
      users := SetOnline(users, id, online);
    }
  }

  function RoomHasId(id: Id): Room -> bool {
    (r: Room) => r.id == id
  }

  function RoomHasName(name: string): Room -> bool {
    (r: Room) => r.name == name
  }

  /** `User.findById(id)`. */
  function UserById(users: seq<User>, id: Id): (r: Option<User>)
    ensures r.Some? ==> r.value in users && r.value.id == id
    ensures r.None? <==> forall i :: 0 <= i < |users| ==> users[i].id != id
  {
    if users == [] then None
    else if users[0].id == id then Some(users[0])
    else UserById(users[1..], id)
  }

  /** An appended user is found under its id when no earlier user holds it. */
  lemma {:induction false} UserByIdAppend(users: seq<User>, u: User, id: Id)
    requires UserById(users, u.id).None?
    ensures UserById(users + [u], id) == if id == u.id then Some(u) else UserById(users, id)
  {
    if users == [] {
      assert [u][1..] == [];
    } else {
      assert (users + [u])[1..] == users[1..] + [u];
      UserByIdAppend(users[1..], u, id);
    }
  }

  /** `User.findOne({ username: name })`. */
  function UserByName(users: seq<User>, name: string): (r: Option<User>)
    ensures r.Some? ==> r.value in users && r.value.username == name
    ensures r.None? <==> forall i :: 0 <= i < |users| ==> users[i].username != name
  {
    if users == [] then None
    else if users[0].username == name then Some(users[0])
    else UserByName(users[1..], name)
  }

  /** The position of `Room.findById(id)`. */
  function RoomIndexById(rooms: seq<Room>, id: Id): (r: Option<nat>)
    ensures r.Some? ==> r.value < |rooms| && rooms[r.value].id == id
    ensures r.None? <==> forall i :: 0 <= i < |rooms| ==> rooms[i].id != id
  {
    IndexWhere(rooms, RoomHasId(id))
  }

  /** The position of `Room.findOne({ name })`. */
  function RoomIndexByName(rooms: seq<Room>, name: string): (r: Option<nat>)
    ensures r.Some? ==> r.value < |rooms| && rooms[r.value].name == name
    ensures r.None? <==> forall i :: 0 <= i < |rooms| ==> rooms[i].name != name
  {
    IndexWhere(rooms, RoomHasName(name))
  }

  /** `User.findByIdAndUpdate(id, { isOnline: online })`. */
  function SetOnline(users: seq<User>, id: Id, online: bool): (r: seq<User>)
    ensures |r| == |users|
    ensures forall i :: 0 <= i < |r| ==> r[i].id == users[i].id && r[i].username == users[i].username
    ensures forall i :: 0 <= i < |r| ==> r[i].isOnline == (if users[i].id == id then online else users[i].isOnline)
  {
    seq(|users|, i requires 0 <= i < |users| => if users[i].id == id then users[i].(isOnline := online) else users[i])
  }

  /** After the write, the user reads back with the new flag and every other
      user reads back as before. */
  lemma {:induction false} SetOnlineReadBack(users: seq<User>, id: Id, online: bool, other: Id)
    ensures UserById(SetOnline(users, id, online), id) ==
      (match UserById(users, id) case Some(u) => Some(u.(isOnline := online)) case None => None)
    ensures other != id ==> UserById(SetOnline(users, id, online), other) == UserById(users, other)
  {
    if users != [] {
      var r := SetOnline(users, id, online);
      SetOnlineReadBack(users[1..], id, online, other);
      assert r[1..] == SetOnline(users[1..], id, online);
      assert r[0] == if users[0].id == id then users[0].(isOnline := online) else users[0];
    }
  }

  /** The `populate('senderId', 'username')` view of a user reference: the
      id and name, or null when the user is gone. */
  function PopulatedUser(users: seq<User>, id: Id): (r: Json)
    ensures UserById(users, id).None? ==> r == JNull
    ensures UserById(users, id).Some? ==>
      Keys(r) == {"_id", "username"} && Get(r, "_id") == Some(JStr(id))
  {
    match UserById(users, id)
    case Some(u) => JObj(map["_id" := JStr(u.id), "username" := JStr(u.username)])
    case None => JNull
  }
}
