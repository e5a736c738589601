/** Accounts: the register and login validators, username normalisation,
    the default-room enrolment both flows perform, presence and tokens. */
module AuthController {
  import opened Wrappers
  import opened Strings
  import opened Wire
  import opened Http
  import opened Models
  import opened Store
  import opened RoomController

  // ---------------------------------------------------------------------------
  // Validation

  const MinUsername := 3
  const MaxUsername := 30
  const MinPassword := 6

  /** A failed check of the account validators and the message it reports. */
  datatype Finding = UsernameLength | UsernameChars | PasswordLength | UsernameMissing | PasswordMissing {
    function Message(): string {
      match this
      case UsernameLength => "Username must be between 3 and 30 characters"
      case UsernameChars => "Username can only contain letters, numbers, and underscores"
      case PasswordLength => "Password must be at least 6 characters"
      case UsernameMissing => "Username is required"
      case PasswordMissing => "Password is required"
    }
  }

  /** The messages `validate` receives, in check order. */
  function Messages(fs: seq<Finding>): (r: seq<string>)
    ensures |r| == |fs| && forall i :: 0 <= i < |fs| ==> r[i] == fs[i].Message()
  {
    seq(|fs|, i requires 0 <= i < |fs| => fs[i].Message())
  }

  /** The validators' findings, in check order, and the sanitized body
      fields. An absent field reads as the empty string. */
  datatype Credentials = Credentials(errors: seq<Finding>, username: string, password: string)

  predicate UsernameLengthOk(u: string) {
    MinUsername <= ValidatorLength(u) <= MaxUsername
  }

  predicate PasswordLengthOk(p: string) {
    ValidatorLength(p) >= MinPassword
  }

  /** What one check contributes: nothing when it holds, else its finding. */
  function Report(ok: bool, f: Finding): seq<Finding> {
    if ok then [] else [f]
  }

  /** Three distinct checks report each once, only when failing, in order. */
  lemma ReportsOfThree(b1: bool, f1: Finding, b2: bool, f2: Finding, b3: bool, f3: Finding)
    requires f1 != f2 && f2 != f3 && f1 != f3
    ensures var e := Report(b1, f1) + Report(b2, f2) + Report(b3, f3);
      && (f1 in e <==> !b1) && (f2 in e <==> !b2) && (f3 in e <==> !b3)
      && |e| <= 3 && (|e| == 3 ==> e == [f1, f2, f3])
  {
  }

  /** `registerValidation`: the username is trimmed, then checked for length
      and for the characters `[a-zA-Z0-9_]`; the password is checked for
      length untrimmed. Every failing check reports, each once. */
  function RegisterValidation(username: Option<string>, password: Option<string>): (r: Credentials)
    ensures r.username == Trim(username.GetOr("")) && r.password == password.GetOr("")
    ensures r.errors == [] <==> UsernameLengthOk(r.username) && IsWord(r.username) && PasswordLengthOk(r.password)
  {
    var u := Trim(username.GetOr(""));
    var p := password.GetOr("");
    Credentials(Report(UsernameLengthOk(u), UsernameLength) + Report(IsWord(u), UsernameChars)
                + Report(PasswordLengthOk(p), PasswordLength), u, p)
  }

  /** Each register check reports once and only when it fails; when all
      fail they report in the order the checks are declared. */
  lemma RegisterFindings(username: Option<string>, password: Option<string>)
    ensures var r := RegisterValidation(username, password);
      && (UsernameLength in r.errors <==> !UsernameLengthOk(r.username))
      && (UsernameChars in r.errors <==> !IsWord(r.username))
      && (PasswordLength in r.errors <==> !PasswordLengthOk(r.password))
      && |r.errors| <= 3
      && (|r.errors| == 3 ==> r.errors == [UsernameLength, UsernameChars, PasswordLength])
  {
    var r := RegisterValidation(username, password);
    var u, p := r.username, r.password;
    ReportsOfThree(UsernameLengthOk(u), UsernameLength, IsWord(u), UsernameChars, PasswordLengthOk(p), PasswordLength);
    assert r.errors == Report(UsernameLengthOk(u), UsernameLength) + Report(IsWord(u), UsernameChars)
      + Report(PasswordLengthOk(p), PasswordLength);
  }

  /** `loginValidation`: a non-empty trimmed username and a non-empty password. */
  function LoginValidation(username: Option<string>, password: Option<string>): (r: Credentials)
    ensures r.username == Trim(username.GetOr("")) && r.password == password.GetOr("")
    ensures r.errors == [] <==> r.username != "" && r.password != ""
    ensures UsernameMissing in r.errors <==> r.username == ""
    ensures PasswordMissing in r.errors <==> r.password == ""
    ensures forall i :: 0 <= i < |r.errors| ==> r.errors[i] in {UsernameMissing, PasswordMissing}
  {
    var u := Trim(username.GetOr(""));
    var p := password.GetOr("");
    Credentials(Report(u != "", UsernameMissing) + Report(p != "", PasswordMissing), u, p)
  }

  // ---------------------------------------------------------------------------
  // Usernames

  predicate NoUpperCase(s: string) {
    forall i :: 0 <= i < |s| ==> !('A' <= s[i] <= 'Z')
  }

  /** `username.toLowerCase().trim()`, the form looked up and stored. */
  function NormalizeUsername(u: string): (r: string)
    ensures Trimmed(r) && NoUpperCase(r)
  {
    var l := ToLower(u);
    assert NoUpperCase(l);
    TrimKeepsChars(l);
    var r := Trim(l);
    assert forall i :: 0 <= i < |r| ==> r[i] in l;
    r
  }

  /** Normalising a normalised name changes nothing. */
  lemma NormalizeUsernameIdempotent(u: string)
    ensures NormalizeUsername(NormalizeUsername(u)) == NormalizeUsername(u)
  {
    var n := NormalizeUsername(u);
    assert ToLower(n) == n;
    TrimOfTrimmed(n);
  }

  /** A validated registration name is stored as its lower-case form, which
      is still a word of 3 to 30 characters. */
  lemma RegisteredNameIsWord(u: string)
    requires UsernameLengthOk(u) && IsWord(u)
    ensures NormalizeUsername(u) == ToLower(u)
    ensures IsWord(NormalizeUsername(u)) && UsernameLengthOk(NormalizeUsername(u))
  {
    LowerOfWord(u);
    var l := ToLower(u);
    WordIsPlain(u);
    WordIsPlain(l);
    TrimOfTrimmed(l);
    assert NormalizeUsername(u) == Trim(l);
  }

  // ---------------------------------------------------------------------------
  // The default room

  /** The write the enrolment block issues against the rooms collection. */
  datatype RoomUpdate = Unchanged | Create(room: Room) | Modify(index: nat, room: Room)

  function Applied(rooms: seq<Room>, u: RoomUpdate): seq<Room>
  {
    match u
    case Unchanged => rooms
    case Create(r) => rooms + [r]
    case Modify(i, r) => if i < |rooms| then rooms[i := r] else rooms
  }

  function DefaultRoomDraft(uid: Id): RoomDraft {
    RoomDraft(Some(DefaultRoomName), Some(DefaultRoomDescription), Some(uid), [uid])
  }

  /** A trimmed name of 2 to 25 characters and a trimmed description of at
      most 100 pass the room schema, whatever characters they hold. */
  lemma ShortRoomAccepted(n: string, ds: string, uid: Id)
    requires Trimmed(n) && Trimmed(ds) && 2 <= |n| <= 25 && |ds| <= 100
    ensures AcceptsRoom(RoomDraft(Some(n), Some(ds), Some(uid), [uid]))
  {
    var d := RoomDraft(Some(n), Some(ds), Some(uid), [uid]);
    TrimOfTrimmed(n);
    TrimOfTrimmed(ds);
    Utf16LengthBounds(n);
    Utf16LengthBounds(ds);
    assert d.name.value == n && d.description.GetOr("") == ds;
    assert Utf16Length(Trim(d.name.value)) <= MaxRoomName;
    assert Utf16Length(Trim(d.description.GetOr(""))) <= MaxDescription;
  }

  /** ... and `Room.create` stores them as given. */
  lemma ShortRoomCreated(n: string, ds: string, uid: Id, id: Id, now: int)
    requires Trimmed(n) && Trimmed(ds) && 2 <= |n| <= 25 && |ds| <= 100
    ensures NewRoom(RoomDraft(Some(n), Some(ds), Some(uid), [uid]), id, now) == Some(Room(id, n, ds, uid, [uid], now, now))
  {
    ShortRoomAccepted(n, ds, uid);
    TrimOfTrimmed(n);
    TrimOfTrimmed(ds);
  }

  /** The room the enrolment block creates. */
  function DefaultRoom(uid: Id, id: Id, now: int): Room {
    Room(id, DefaultRoomName, DefaultRoomDescription, uid, [uid], now, now)
  }

  /** The default room's fixed name and description pass the room schema,
      so `Room.create` of the enrolment draft always succeeds. */
  lemma DefaultRoomCreated(uid: Id, id: Id, now: int)
    ensures NewRoom(DefaultRoomDraft(uid), id, now) == Some(DefaultRoom(uid, id, now))
  {
    ShortRoomCreated(DefaultRoomName, DefaultRoomDescription, uid, id, now);
  }

  lemma DefaultRoomValid(uid: Id, id: Id, now: int)
    ensures ValidRoom(DefaultRoom(uid, id, now))
  {
    DefaultRoomCreated(uid, id, now);
    var r := NewRoom(DefaultRoomDraft(uid), id, now);
    assert r.Some? && ValidRoom(r.value);
  }

  /** "Ensure the default room exists and add the user to it": create
      `chat-room` with the user as creator and only participant, or append
      the user to it when absent. */
  function EnsureDefaultRoom(rooms: seq<Room>, uid: Id, id: Id, now: int): (r: RoomUpdate)
    ensures RoomIndexByName(rooms, DefaultRoomName).None? ==> r == Create(DefaultRoom(uid, id, now))
    ensures RoomIndexByName(rooms, DefaultRoomName).Some? ==>
      var i := RoomIndexByName(rooms, DefaultRoomName).value;
      && (uid in rooms[i].participants ==> r == Unchanged)
      && (uid !in rooms[i].participants ==> r == Modify(i, WithParticipants(rooms[i], rooms[i].participants + [uid], now)))
  {
    match RoomIndexByName(rooms, DefaultRoomName)
    case None =>
      Create(DefaultRoom(uid, id, now))
    case Some(i) =>
      if uid in rooms[i].participants then Unchanged
      else Modify(i, WithParticipants(rooms[i], AddParticipant(rooms[i].participants, uid), now))
  }

  /** Whatever the rooms were, afterwards `chat-room` is found by name and
      holds the user. */
  lemma DefaultRoomHoldsUser(rooms: seq<Room>, uid: Id, id: Id, now: int)
    ensures var after := Applied(rooms, EnsureDefaultRoom(rooms, uid, id, now));
      RoomIndexByName(after, DefaultRoomName).Some?
      && uid in after[RoomIndexByName(after, DefaultRoomName).value].participants
  {
    var after := Applied(rooms, EnsureDefaultRoom(rooms, uid, id, now));
    match RoomIndexByName(rooms, DefaultRoomName)
    case None =>
      NameFoundAtEnd(rooms, after[|rooms|], DefaultRoomName);
    case Some(i) =>
      if uid !in rooms[i].participants {
        assert forall j :: 0 <= j < i ==> after[j] == rooms[j];
        assert after[i].name == DefaultRoomName;
      }
  }

  /** Enrolling a user a second time writes nothing. */
  lemma EnsureDefaultRoomSettles(rooms: seq<Room>, uid: Id, id: Id, now: int, id': Id, now': int)
    ensures var after := Applied(rooms, EnsureDefaultRoom(rooms, uid, id, now));
      EnsureDefaultRoom(after, uid, id', now') == Unchanged
  {
    DefaultRoomHoldsUser(rooms, uid, id, now);
  }

  /** Enrolment keeps every stored room valid. */
  lemma EnsureDefaultRoomValid(rooms: seq<Room>, uid: Id, id: Id, now: int)
    requires forall i :: 0 <= i < |rooms| ==> ValidRoom(rooms[i])
    ensures var u := EnsureDefaultRoom(rooms, uid, id, now);
      (u.Create? || u.Modify?) ==> ValidRoom(u.room)
    ensures var u := EnsureDefaultRoom(rooms, uid, id, now);
      u.Modify? ==> u.index < |rooms|
  {
    match RoomIndexByName(rooms, DefaultRoomName)
    case None =>
      DefaultRoomValid(uid, id, now);
      assert EnsureDefaultRoom(rooms, uid, id, now) == Create(DefaultRoom(uid, id, now));
    case Some(i) =>
      assert ValidRoom(rooms[i]);
      if uid !in rooms[i].participants {
        assert EnsureDefaultRoom(rooms, uid, id, now) == Modify(i, WithParticipants(rooms[i], rooms[i].participants + [uid], now));
      }
  }

  // ---------------------------------------------------------------------------
  // Handlers

  /** `user.toJSON()` as far as the chat logic uses it. */
  function UserJson(u: User): Json {
    JObj(map["_id" := JStr(u.id), "username" := JStr(u.username), "isOnline" := JBool(u.isOnline)])
  }

  /** The `data` of a successful register or login. */
  function AuthData(u: User, sign: Id -> string): Json {
    JObj(map["user" := UserJson(u), "token" := JStr(sign(u.id))])
  }

  const NameTaken := "Username is already taken"
  const BadCredentials := "Invalid username or password"

  /** Login's credential check: the stored user under the normalised name,
      when `comparePassword` accepts the password. Unknown names and wrong
      passwords are not told apart. */
  function Authenticate(users: seq<User>, name: string, password: string, comparePassword: (User, string) -> bool): (r: Option<User>)
    ensures r.Some? <==> UserByName(users, name).Some? && comparePassword(UserByName(users, name).value, password)
    ensures r.Some? ==> r.value in users && r.value.username == name
  {
    match UserByName(users, name)
    case None => None
    case Some(u) => if comparePassword(u, password) then Some(u) else None
  }

  /** Applies an enrolment write. */
  method SaveDefaultRoom(db: Db, u: RoomUpdate)
    requires db.Valid()
    requires (u.Create? || u.Modify?) ==> ValidRoom(u.room)
    requires u.Modify? ==> u.index < |db.rooms|
    modifies db
    ensures db.Valid()
    ensures db.rooms == Applied(old(db.rooms), u)
    ensures db.users == old(db.users) && db.messages == old(db.messages)
  {
    match u
    case Unchanged =>
    case Create(r) => db.AddRoom(r);
    case Modify(i, r) => db.PutRoom(i, r);
  }

  /** `POST /api/auth/register` behind `registerValidation` and `validate`.
      `userId` and `roomId` are the ids the store would assign, `sign` is
      token issuance. */
  method Register(db: Db, username: Option<string>, password: Option<string>, userId: Id, roomId: Id, now: int, sign: Id -> string)
    returns (resp: Response)
    requires db.Valid() && UserById(db.users, userId).None?
    requires RegisterValidation(username, password).errors == []
    modifies db
    ensures db.Valid() && db.messages == old(db.messages)
    ensures var name := NormalizeUsername(RegisterValidation(username, password).username);
      && (UserByName(old(db.users), name).Some? ==>
            resp == Failure(400, NameTaken) && db.users == old(db.users) && db.rooms == old(db.rooms))
      && (UserByName(old(db.users), name).None? ==>
            && db.users == SetOnline(old(db.users) + [User(userId, name, false)], userId, true)
            && db.rooms == Applied(old(db.rooms), EnsureDefaultRoom(old(db.rooms), userId, roomId, now))
            && resp == Success(201, AuthData(User(userId, name, true), sign)))
  {
    var name := NormalizeUsername(RegisterValidation(username, password).username);
    if UserByName(db.users, name).Some? {
      return Failure(400, NameTaken);
    }
    var user := User(userId, name, false);
    db.AddUser(user);
    var upd := EnsureDefaultRoom(db.rooms, userId, roomId, now);
    EnsureDefaultRoomValid(db.rooms, userId, roomId, now);
    SaveDefaultRoom(db, upd);
    db.SetPresence(userId, true);
    resp := Success(201, AuthData(user.(isOnline := true), sign));
  }

  /** After registering, the new account reads back online under its
      normalised name, and every other account is as it was. */
  lemma RegisteredUserReadsBack(users: seq<User>, userId: Id, name: string, other: Id)
    requires UserById(users, userId).None?
    ensures var after := SetOnline(users + [User(userId, name, false)], userId, true);
      && UserById(after, userId) == Some(User(userId, name, true))
      && (other != userId ==> UserById(after, other) == UserById(users, other))
  {
    var u := User(userId, name, false);
    UserByIdAppend(users, u, userId);
    UserByIdAppend(users, u, other);
    SetOnlineReadBack(users + [u], userId, true, other);
  }

  /** `POST /api/auth/login` behind `loginValidation` and `validate`. */
  method Login(db: Db, username: Option<string>, password: Option<string>, roomId: Id, now: int,
               comparePassword: (User, string) -> bool, sign: Id -> string)
    returns (resp: Response)
    requires db.Valid()
    requires LoginValidation(username, password).errors == []
    modifies db
    ensures db.Valid() && db.messages == old(db.messages)
    ensures var c := LoginValidation(username, password);
      var found := Authenticate(old(db.users), NormalizeUsername(c.username), c.password, comparePassword);
      && (found.None? ==>
            resp == Failure(401, BadCredentials) && db.users == old(db.users) && db.rooms == old(db.rooms))
      && (found.Some? ==>
            && db.users == SetOnline(old(db.users), found.value.id, true)
            && db.rooms == Applied(old(db.rooms), EnsureDefaultRoom(old(db.rooms), found.value.id, roomId, now))
            && resp == Success(200, AuthData(found.value.(isOnline := true), sign)))
  {
    var c := LoginValidation(username, password);
    var found := Authenticate(db.users, NormalizeUsername(c.username), c.password, comparePassword);
    if found.None? {
      return Failure(401, BadCredentials);
    }
    var user := found.value;
    var upd := EnsureDefaultRoom(db.rooms, user.id, roomId, now);
    EnsureDefaultRoomValid(db.rooms, user.id, roomId, now);
    SaveDefaultRoom(db, upd);
    db.SetPresence(user.id, true);
    resp := Success(200, AuthData(user.(isOnline := true), sign));
  }

  /** `POST /api/auth/logout` behind `protect`. */
  method Logout(db: Db, me: User) returns (resp: Response)
    requires db.Valid()
    modifies db
    ensures db.Valid()
    ensures db.users == SetOnline(old(db.users), me.id, false)
    ensures db.rooms == old(db.rooms) && db.messages == old(db.messages)
    ensures resp == Success(200, JObj(map["message" := JStr("Logged out successfully")]))
  {
    db.SetPresence(me.id, false);
    resp := Success(200, JObj(map["message" := JStr("Logged out successfully")]));
  }
}
