/** HTTP message ingestion and history: the upload filter and size limit, the
    send validator, the two history endpoints and the three write paths
    (legacy `POST /send`, REST send, file upload). Each write path is a
    fixed chain of guards computed as an `Ingest` plan, then at most one
    insert and one `io.to(room)` emit. */
module MessageController {
  import opened Wrappers
  import opened Strings
  import opened Wire
  import opened Http
  import opened Seqs
  import opened Models
  import opened Store
  import opened SocketEngine

  // ---------------------------------------------------------------------------
  // Upload filter and limits

  const AllowedMimeTypes: seq<string> := [
    "image/jpeg", "image/png", "image/gif", "image/webp", "image/svg+xml",
    "application/pdf",
    "application/msword", "application/vnd.openxmlformats-officedocument.wordprocessingml.document",
    "application/vnd.ms-excel", "application/vnd.openxmlformats-officedocument.spreadsheetml.sheet",
    "application/vnd.ms-powerpoint", "application/vnd.openxmlformats-officedocument.presentationml.presentation",
    "text/plain", "text/csv",
    "application/zip", "application/x-rar-compressed", "application/gzip",
    "audio/mpeg", "audio/wav", "audio/ogg",
    "video/mp4", "video/webm", "video/ogg"
  ]

  const MaxUploadBytes: nat := 50 * 1024 * 1024

  datatype FilterVerdict = Accept | Reject(message: string)

  /** `fileFilter`. */
  function FileFilter(mimetype: string): (r: FilterVerdict)
    ensures r.Accept? <==> mimetype in AllowedMimeTypes
    ensures r.Reject? ==> r.message == "File type " + mimetype + " is not allowed"
  {
    if mimetype in AllowedMimeTypes then Accept else Reject("File type " + mimetype + " is not allowed")
  }

  /** A part named `file` as the browser sends it. */
  datatype IncomingFile = IncomingFile(originalname: string, mimetype: string, size: nat)

  /** `req.file` once the upload middleware has written it under `filename`. */
  datatype StoredFile = StoredFile(filename: string, originalname: string, mimetype: string, size: nat)

  datatype Reception = NoFile | Received(file: StoredFile) | Rejected(message: string)

  /** What the upload middleware lets through to the handler. */
  predicate Admissible(f: StoredFile) {
    f.mimetype in AllowedMimeTypes && f.size <= MaxUploadBytes
  }

  /** `upload.single('file')`: the filter first, then the size limit; a
      rejection goes to the error handler. `filename` is the generated name. */
  function ReceiveUpload(part: Option<IncomingFile>, filename: string): (r: Reception)
    ensures part.None? <==> r == NoFile
    ensures r.Received? ==> Admissible(r.file) && r.file.filename == filename
    ensures r.Received? ==> r.file.originalname == part.value.originalname && r.file.mimetype == part.value.mimetype
    ensures r.Received? ==> r.file.size == part.value.size
    ensures part.Some? && part.value.mimetype !in AllowedMimeTypes ==>
      r == Rejected("File type " + part.value.mimetype + " is not allowed")
    ensures part.Some? && part.value.mimetype in AllowedMimeTypes && part.value.size > MaxUploadBytes ==>
      r == Rejected("File too large")
  {
    match part
    case None => NoFile
    case Some(f) =>
      match FileFilter(f.mimetype)
      case Reject(message) => Rejected(message)
      case Accept =>
        if f.size > MaxUploadBytes then Rejected("File too large")
        else Received(StoredFile(filename, f.originalname, f.mimetype, f.size))
  }

  /** A file of exactly the limit passes; one byte more does not. */
  lemma UploadLimitBoundary(name: string, filename: string)
    ensures ReceiveUpload(Some(IncomingFile(name, "application/pdf", 52428800)), filename).Received?
    ensures ReceiveUpload(Some(IncomingFile(name, "application/pdf", 52428801)), filename).Rejected?
  {
    assert AllowedMimeTypes[5] == "application/pdf";
  }

  // ---------------------------------------------------------------------------
  // Send validation

  datatype Checked = Checked(errors: seq<string>, value: string)

  /** `sendMessageValidation`: the field is trimmed (absent reads as empty),
      then must be non-empty and at most 2000 characters as the validator
      counts them. */
  function SendMessageValidation(message: Option<string>): (r: Checked)
    ensures r.value == Trim(message.GetOr(""))
    ensures r.errors == [] <==> r.value != "" && ValidatorLength(r.value) <= MaxMessageLength
    ensures r.value == "" ==> r.errors == ["Message is required"]
    ensures r.value != "" && ValidatorLength(r.value) > MaxMessageLength ==> r.errors == ["Message cannot exceed 2000 characters"]
  {
    var v := Trim(message.GetOr(""));
    if v == "" then Checked(["Message is required"], v)
    else if ValidatorLength(v) > MaxMessageLength then Checked(["Message cannot exceed 2000 characters"], v)
    else Checked([], v)
  }

  // ---------------------------------------------------------------------------
  // Wire shapes

  /** The legacy path's new-message data: six keys, the sender's id unexpanded. */
  function LegacyPayload(m: Message): (r: Json)
    ensures Keys(r) == {"_id", "message", "senderNick", "senderId", "room", "createdAt"}
    ensures Get(r, "senderId") == Some(JStr(m.senderId)) && Get(r, "message") == Some(JStr(m.message))
  {
    JObj(map["_id" := JStr(m.id), "message" := JStr(m.message), "senderNick" := JStr(m.senderNick),
             "senderId" := JStr(m.senderId), "room" := JStr(m.room), "createdAt" := JNum(m.createdAt)])
  }

  /** The REST path's new-message data: the same six keys, the sender expanded
      to `sender` (`{ _id, username }`). */
  function RestPayload(m: Message, sender: Json): (r: Json)
    ensures Keys(r) == {"_id", "message", "senderNick", "senderId", "room", "createdAt"}
    ensures Get(r, "senderId") == Some(sender) && Get(r, "message") == Some(JStr(m.message))
  {
    JObj(map["_id" := JStr(m.id), "message" := JStr(m.message), "senderNick" := JStr(m.senderNick),
             "senderId" := sender, "room" := JStr(m.room), "createdAt" := JNum(m.createdAt)])
  }

  /** The upload path's new-message data: eight keys, the sender expanded. */
  function UploadPayload(m: Message, sender: Json): (r: Json)
    ensures Keys(r) == {"_id", "message", "messageType", "file", "senderNick", "senderId", "room", "createdAt"}
    ensures Get(r, "senderId") == Some(sender)
    ensures Get(r, "file") == Some(if m.file.Some? then FileJson(m.file.value) else JNull)
    ensures Get(r, "messageType") == Some(JStr(m.messageType.Name()))
  {
    JObj(map["_id" := JStr(m.id), "message" := JStr(m.message), "messageType" := JStr(m.messageType.Name()),
             "file" := (match m.file case Some(f) => FileJson(f) case None => JNull), "senderNick" := JStr(m.senderNick),
             "senderId" := sender, "room" := JStr(m.room), "createdAt" := JNum(m.createdAt)])
  }

  /** The three paths emit different shapes: the legacy and REST events lack
      the socket event's `messageType` and `file`, the upload event has them. */
  lemma PayloadShapes(m: Message, sender: Json)
    ensures Keys(LegacyPayload(m)) == Keys(RestPayload(m, sender)) == Keys(SocketPayload(m)) - {"messageType", "file"}
    ensures Keys(UploadPayload(m, sender)) == Keys(SocketPayload(m))
  {
  }

  /** A stored message as a JSON document, with its sender reference as
      `sender`; the file sub-document appears only when present. */
  function MessageDoc(m: Message, sender: Json): (r: Json)
    ensures m.file.None? ==> Keys(r) == {"_id", "message", "messageType", "senderNick", "senderId", "room", "createdAt", "updatedAt"}
    ensures m.file.Some? ==> Keys(r) == {"_id", "message", "messageType", "file", "senderNick", "senderId", "room", "createdAt", "updatedAt"}
    ensures Get(r, "senderId") == Some(sender)
  {
    var base := map["_id" := JStr(m.id), "message" := JStr(m.message), "messageType" := JStr(m.messageType.Name()),
                    "senderNick" := JStr(m.senderNick), "senderId" := sender, "room" := JStr(m.room),
                    "createdAt" := JNum(m.createdAt), "updatedAt" := JNum(m.updatedAt)];
    match m.file
    case None => JObj(base)
    case Some(f) => JObj(base["file" := FileJson(f)])
  }

  // ---------------------------------------------------------------------------
  // History

  function CreatedAt(m: Message): int { m.createdAt }

  function InRoom(roomId: Id): Message -> bool {
    (m: Message) => m.room == roomId
  }

  /** `Message.find({ room }).sort({ createdAt: 1 })`. */
  function RoomMessages(messages: seq<Message>, roomId: Id): (r: seq<Message>)
    ensures multiset(r) == multiset(Filter(messages, InRoom(roomId)))
    ensures forall i, j :: 0 <= i < j < |r| ==> r[i].createdAt <= r[j].createdAt
  {
    SortBy(Filter(messages, InRoom(roomId)), CreatedAt)
  }

  /** The history holds a message exactly when it belongs to the room. */
  lemma RoomMessagesMembers(messages: seq<Message>, roomId: Id, m: Message)
    ensures m in RoomMessages(messages, roomId) <==> m in messages && m.room == roomId
  {
    var kept := Filter(messages, InRoom(roomId));
    SortByMembers(kept, CreatedAt, m);
    FilterMembers(messages, InRoom(roomId), m);
  }

  /** `getMessages`: 404 for an unknown room, else the room's messages in
      ascending creation order, each sender expanded. */
  function GetMessages(rooms: seq<Room>, messages: seq<Message>, users: seq<User>, roomId: Id): (r: Response)
    ensures RoomIndexById(rooms, roomId).None? ==> r == Failure(404, "Room not found")
    ensures RoomIndexById(rooms, roomId).Some? ==>
      var ms := RoomMessages(messages, roomId);
      r == Success(200, JArr(seq(|ms|, k requires 0 <= k < |ms| => MessageDoc(ms[k], PopulatedUser(users, ms[k].senderId)))))
  {
    if RoomIndexById(rooms, roomId).None? then Failure(404, "Room not found")
    else
      var ms := RoomMessages(messages, roomId);
      Success(200, JArr(seq(|ms|, k requires 0 <= k < |ms| => MessageDoc(ms[k], PopulatedUser(users, ms[k].senderId)))))
  }

  /** The documents of the stored messages of a room, senders expanded. */
  function MessageDocs(messages: seq<Message>, users: seq<User>, roomId: Id): set<Json> {
    set m | m in messages && m.room == roomId :: MessageDoc(m, PopulatedUser(users, m.senderId))
  }

  /** What a successful `getMessages` sends: the room exists, there is one
      entry per message of the room, every such message's document is among
      them and nothing else is, oldest first by the `createdAt` each entry
      carries. */
  lemma GetMessagesListing(rooms: seq<Room>, messages: seq<Message>, users: seq<User>, roomId: Id, items: seq<Json>)
    requires GetMessages(rooms, messages, users, roomId) == Success(200, JArr(items))
    ensures RoomIndexById(rooms, roomId).Some?
    ensures |items| == |Filter(messages, InRoom(roomId))|
    ensures forall m :: m in messages && m.room == roomId ==> MessageDoc(m, PopulatedUser(users, m.senderId)) in items
    ensures forall i :: 0 <= i < |items| ==> items[i] in MessageDocs(messages, users, roomId)
    ensures forall i, j :: 0 <= i < j < |items| ==> NumAt(items[i], "createdAt") <= NumAt(items[j], "createdAt")
  {
    var ms := RoomMessages(messages, roomId);
    GetMessagesItems(rooms, messages, users, roomId, items);
    assert |ms| == |Filter(messages, InRoom(roomId))| by {
      assert |multiset(ms)| == |multiset(Filter(messages, InRoom(roomId)))|;
    }
    forall m | m in messages && m.room == roomId
      ensures MessageDoc(m, PopulatedUser(users, m.senderId)) in items
    {
      RoomMessagesMembers(messages, roomId, m);
      var k :| 0 <= k < |ms| && ms[k] == m;
      assert items[k] == MessageDoc(m, PopulatedUser(users, m.senderId));
    }
    forall i | 0 <= i < |items|
      ensures items[i] in MessageDocs(messages, users, roomId)
    {
      RoomMessagesMembers(messages, roomId, ms[i]);
      assert items[i] == MessageDoc(ms[i], PopulatedUser(users, ms[i].senderId));
    }
    forall i, j | 0 <= i < j < |items|
      ensures NumAt(items[i], "createdAt") <= NumAt(items[j], "createdAt")
    {
      MessageDocCreatedAt(ms[i], PopulatedUser(users, ms[i].senderId));
      MessageDocCreatedAt(ms[j], PopulatedUser(users, ms[j].senderId));
    }
  }

  lemma GetMessagesItems(rooms: seq<Room>, messages: seq<Message>, users: seq<User>, roomId: Id, items: seq<Json>)
    requires GetMessages(rooms, messages, users, roomId) == Success(200, JArr(items))
    ensures RoomIndexById(rooms, roomId).Some?
    ensures var ms := RoomMessages(messages, roomId);
      && |items| == |ms|
      && forall k :: 0 <= k < |ms| ==> items[k] == MessageDoc(ms[k], PopulatedUser(users, ms[k].senderId))
  {
    assert Get(JObj(map["success" := JBool(true), "data" := JArr(items)]), "success") == Some(JBool(true));
    var ms := RoomMessages(messages, roomId);
    var docs := seq(|ms|, k requires 0 <= k < |ms| => MessageDoc(ms[k], PopulatedUser(users, ms[k].senderId)));
    SuccessData(200, JArr(items), JArr(docs));
  }

  lemma MessageDocCreatedAt(m: Message, sender: Json)
    ensures NumAt(MessageDoc(m, sender), "createdAt") == m.createdAt
  {
  }

  /** One history line; `timeText` renders a timestamp in the server's locale. */
  function LegacyLine(m: Message, timeText: int -> string): string {
    "Received message at " + timeText(m.createdAt) + " from " + m.senderNick + ": " + m.message
  }

  /** `getMessagesLegacy`: an empty array without a `chat-room`; otherwise
      one line per message of that room, oldest first. Never an error. */
  function GetMessagesLegacy(rooms: seq<Room>, messages: seq<Message>, timeText: int -> string): (r: Response)
    ensures r.Reply? && r.status == 200 && r.body.JsonBody? && r.body.value.JArr?
    ensures RoomIndexByName(rooms, DefaultRoomName).None? ==> r.body.value.items == []
    ensures RoomIndexByName(rooms, DefaultRoomName).Some? ==>
      var ms := RoomMessages(messages, rooms[RoomIndexByName(rooms, DefaultRoomName).value].id);
      && |r.body.value.items| == |ms|
      && forall k :: 0 <= k < |ms| ==> r.body.value.items[k] == JStr(LegacyLine(ms[k], timeText))
  {
    match RoomIndexByName(rooms, DefaultRoomName)
    case None => Reply(200, JsonBody(JArr([])))
    case Some(i) =>
      var ms := RoomMessages(messages, rooms[i].id);
      Reply(200, JsonBody(JArr(seq(|ms|, k requires 0 <= k < |ms| => JStr(LegacyLine(ms[k], timeText))))))
  }

  // ---------------------------------------------------------------------------
  // Write paths

  /** The outcome of a write path's guards: reply without writing, or insert
      `msg`, emit new-message with `payload` to `room`, then reply. */
  datatype Ingest =
    | Answer(response: Response)
    | Insert(msg: Message, room: Id, payload: Json, response: Response)

  /** Which write path is committing, with its expanded sender where it has one. */
  datatype Path = Legacy | Rest(sender: Json) | Upload(sender: Json)

  function PathPayload(path: Path, m: Message): Json {
    match path
    case Legacy => LegacyPayload(m)
    case Rest(sender) => RestPayload(m, sender)
    case Upload(sender) => UploadPayload(m, sender)
  }

  function PathResponse(path: Path, m: Message): Response {
    match path
    case Legacy => Reply(200, Empty)
    case Rest(sender) => Success(201, MessageDoc(m, sender))
    case Upload(sender) => Success(201, MessageDoc(m, sender))
  }

  /** The common tail of the write paths: `Message.create(draft)`, then the
      emit to `room` and the reply; a validation or database failure goes to
      the error handler. */
  function Commit(draft: MessageDraft, room: Id, path: Path, id: Id, now: int, storeUp: bool): (r: Ingest)
    ensures r.Insert? <==> AcceptsMessage(draft) && storeUp
    ensures r.Answer? ==> r.response == ToErrorHandler
    ensures r.Insert? ==>
      && Some(r.msg) == NewMessage(draft, id, now) && r.room == room
      && r.payload == PathPayload(path, r.msg) && r.response == PathResponse(path, r.msg)
  {
    match NewMessage(draft, id, now)
    case None => Answer(ToErrorHandler)
    case Some(m) => if storeUp then Insert(m, room, PathPayload(path, m), PathResponse(path, m)) else Answer(ToErrorHandler)
  }

  /** How the legacy path reads the body's `message`: falsy or blank text is
      undecodable, a truthy non-string makes `trim` throw. */
  datatype Decoded = Undecodable | Throws | Decodes(s: string)

  function DecodeLegacy(message: Option<Json>): (r: Decoded)
    ensures r == Undecodable <==> !Truthy(message) || (AsString(message).Some? && AllSpace(AsString(message).value))
    ensures r == Throws <==> Truthy(message) && AsString(message).None?
    ensures r.Decodes? ==> Some(r.s) == AsString(message) && Trim(r.s) != ""
  {
    if !Truthy(message) then Undecodable
    else match AsString(message)
      case None => Throws
      case Some(s) => if Trim(s) == "" then Undecodable else Decodes(s)
  }

  /** The record the legacy path stores: "Anonymous", on behalf of the
      default room's creator. */
  function LegacyDraft(room: Room, s: string): MessageDraft {
    MessageDraft(Some(Trim(s)), None, None, Some("Anonymous"), Some(room.createdBy), Some(room.id))
  }

  /** `postMessageLegacy` (public): `message` is the body's field. The text is
      checked before the room is looked up. */
  function PlanLegacyPost(rooms: seq<Room>, message: Option<Json>, id: Id, now: int, storeUp: bool): (r: Ingest)
    ensures DecodeLegacy(message) == Undecodable ==> r == Answer(Reply(400, JsonBody(JStr("failed to decode"))))
    ensures DecodeLegacy(message) == Throws ==> r == Answer(ToErrorHandler)
    ensures DecodeLegacy(message).Decodes? && RoomIndexByName(rooms, DefaultRoomName).None? ==>
      r == Answer(Reply(500, JsonBody(JStr("Room not found"))))
    ensures DecodeLegacy(message).Decodes? && RoomIndexByName(rooms, DefaultRoomName).Some? ==>
      var room := rooms[RoomIndexByName(rooms, DefaultRoomName).value];
      r == Commit(LegacyDraft(room, DecodeLegacy(message).s), room.id, Legacy, id, now, storeUp)
  {
    match DecodeLegacy(message)
    case Undecodable => Answer(Reply(400, JsonBody(JStr("failed to decode"))))
    case Throws => Answer(ToErrorHandler)
    case Decodes(s) =>
      match RoomIndexByName(rooms, DefaultRoomName)
      case None => Answer(Reply(500, JsonBody(JStr("Room not found"))))
      case Some(i) => Commit(LegacyDraft(rooms[i], s), rooms[i].id, Legacy, id, now, storeUp)
  }

  /** A legacy post is stored exactly when its text decodes, `chat-room`
      exists, the trimmed text fits and the write succeeds; it is stored
      trimmed, as "Anonymous" on behalf of the room's creator, emitted with
      the legacy shape to that room, and answered 200 with an empty body. */
  lemma {:induction false} LegacyPostRecord(rooms: seq<Room>, message: Option<Json>, id: Id, now: int, storeUp: bool)
    ensures var r := PlanLegacyPost(rooms, message, id, now, storeUp);
      r.Insert? <==>
        && DecodeLegacy(message).Decodes? && RoomIndexByName(rooms, DefaultRoomName).Some?
        && Utf16Length(Trim(DecodeLegacy(message).s)) <= MaxMessageLength && storeUp
    ensures var r := PlanLegacyPost(rooms, message, id, now, storeUp);
      r.Insert? ==>
        var room := rooms[RoomIndexByName(rooms, DefaultRoomName).value];
        && ValidMessage(r.msg) && r.msg.message == Trim(AsString(message).value)
        && r.msg.senderNick == "Anonymous" && r.msg.senderId == room.createdBy && r.msg.room == room.id
        && r.msg.messageType == Text && r.msg.file.None? && r.msg.id == id
        && r.room == room.id && r.payload == LegacyPayload(r.msg) && r.response == Reply(200, Empty)
  {
    var d := DecodeLegacy(message);
    if d.Decodes? {
      TrimIdempotent(d.s);
    }
  }

  /** `sendMessage` behind `protect` and `sendMessageValidation`: `text` is
      the validated, trimmed body field and `me` is `req.user`. */
  function PlanRestSend(rooms: seq<Room>, users: seq<User>, me: User, roomId: Id, text: string,
                        id: Id, now: int, storeUp: bool): (r: Ingest)
    ensures RoomIndexById(rooms, roomId).None? ==> r == Answer(Failure(404, "Room not found"))
    ensures RoomIndexById(rooms, roomId).Some? ==>
      r == Commit(MessageDraft(Some(Trim(text)), None, None, Some(me.username), Some(me.id), Some(roomId)),
                  roomId, Rest(PopulatedUser(users, me.id)), id, now, storeUp)
  {
    if RoomIndexById(rooms, roomId).None? then Answer(Failure(404, "Room not found"))
    else
      var draft := MessageDraft(Some(Trim(text)), None, None, Some(me.username), Some(me.id), Some(roomId));
      Commit(draft, roomId, Rest(PopulatedUser(users, me.id)), id, now, storeUp)
  }

  /** A draft of already trimmed text is accepted exactly when the text fits
      and the sender has a name. */
  lemma TrimmedDraftAccepted(t: string, nick: string, senderId: Id, room: Id)
    requires Trimmed(t)
    ensures var d := MessageDraft(Some(t), None, None, Some(nick), Some(senderId), Some(room));
      AcceptsMessage(d) <==> Utf16Length(t) <= MaxMessageLength && nick != ""
  {
    TrimOfTrimmed(t);
  }

  /** A REST send to a known room is stored exactly when the trimmed text
      fits the schema and the write succeeds; text too long for the schema
      goes to the error handler. */
  lemma {:induction false} RestSendStored(rooms: seq<Room>, users: seq<User>, me: User, roomId: Id, text: string,
                                          id: Id, now: int, storeUp: bool)
    ensures var r := PlanRestSend(rooms, users, me, roomId, text, id, now, storeUp);
      r.Insert? <==> RoomIndexById(rooms, roomId).Some? && Utf16Length(Trim(text)) <= MaxMessageLength && me.username != "" && storeUp
    ensures var r := PlanRestSend(rooms, users, me, roomId, text, id, now, storeUp);
      RoomIndexById(rooms, roomId).Some? && Utf16Length(Trim(text)) > MaxMessageLength ==> r == Answer(ToErrorHandler)
  {
    if RoomIndexById(rooms, roomId).Some? {
      var draft := MessageDraft(Some(Trim(text)), None, None, Some(me.username), Some(me.id), Some(roomId));
      var r := Commit(draft, roomId, Rest(PopulatedUser(users, me.id)), id, now, storeUp);
      assert PlanRestSend(rooms, users, me, roomId, text, id, now, storeUp) == r;
      TrimmedDraftAccepted(Trim(text), me.username, me.id, roomId);
    }
  }

  /** A stored REST send holds the trimmed text under the requester's name
      and id, is emitted with the REST shape and answered 201 with the
      stored document. */
  lemma {:induction false} RestSendRecord(rooms: seq<Room>, users: seq<User>, me: User, roomId: Id, text: string,
                                          id: Id, now: int, storeUp: bool)
    requires PlanRestSend(rooms, users, me, roomId, text, id, now, storeUp).Insert?
    ensures var r := PlanRestSend(rooms, users, me, roomId, text, id, now, storeUp);
      && ValidMessage(r.msg) && r.msg.message == Trim(text)
      && r.msg.senderNick == me.username && r.msg.senderId == me.id && r.msg.room == roomId
      && r.msg.messageType == Text && r.msg.file.None? && r.msg.id == id
      && r.room == roomId && r.payload == RestPayload(r.msg, PopulatedUser(users, me.id))
      && r.response == Success(201, MessageDoc(r.msg, PopulatedUser(users, me.id)))
  {
    TrimIdempotent(text);
  }

  /** The validator and the schema measure length differently: 1001 emoji
      pass validation (1001 characters) but not the schema (2002 UTF-16
      units), so a validated REST send can still end in the error handler. */
  lemma ValidatedSendCanFail(rooms: seq<Room>, users: seq<User>, me: User, roomId: Id, id: Id, now: int)
    requires RoomIndexById(rooms, roomId).Some?
    ensures var text := seq(1001, _ => '\U{1F600}');
      && SendMessageValidation(Some(text)).errors == []
      && PlanRestSend(rooms, users, me, roomId, SendMessageValidation(Some(text)).value, id, now, true) == Answer(ToErrorHandler)
  {
    var text := seq(1001, _ => '\U{1F600}');
    assert !IsSpace(text[0]) && !IsSpace(text[|text| - 1]);
    TrimOfTrimmed(text);
    AstralLengths(text);
    RestSendStored(rooms, users, me, roomId, text, id, now, true);
  }

  /** The text an upload is stored with: the caption, or the file's
      original name when there is none. */
  function UploadText(f: StoredFile, caption: Option<string>): string {
    if caption.Some? && caption.value != "" then caption.value else f.originalname
  }

  /** `image` exactly for `image/` types, else `file`. */
  function UploadKind(f: StoredFile): (r: MessageType)
    ensures r == Image <==> StartsWith(f.mimetype, "image/")
    ensures r == File <==> !StartsWith(f.mimetype, "image/")
  {
    if StartsWith(f.mimetype, "image/") then Image else File
  }

  function UploadDraft(me: User, roomId: Id, f: StoredFile, caption: Option<string>): MessageDraft {
    MessageDraft(Some(UploadText(f, caption)), Some(UploadKind(f)),
                 Some(FileMeta(f.filename, f.originalname, f.mimetype, f.size, "/uploads/" + f.filename)),
                 Some(me.username), Some(me.id), Some(roomId))
  }

  /** `uploadFile` behind `protect` and the upload middleware: `file` is
      `req.file`, `caption` the body's caption field. The room is checked
      before the file. */
  function PlanUpload(rooms: seq<Room>, users: seq<User>, me: User, roomId: Id, file: Option<StoredFile>,
                      caption: Option<string>, id: Id, now: int, storeUp: bool): (r: Ingest)
    ensures RoomIndexById(rooms, roomId).None? ==> r == Answer(Failure(404, "Room not found"))
    ensures RoomIndexById(rooms, roomId).Some? && file.None? ==> r == Answer(Failure(400, "No file provided"))
    ensures RoomIndexById(rooms, roomId).Some? && file.Some? ==>
      r == Commit(UploadDraft(me, roomId, file.value, caption), roomId, Upload(PopulatedUser(users, me.id)), id, now, storeUp)
  {
    if RoomIndexById(rooms, roomId).None? then Answer(Failure(404, "Room not found"))
    else match file
      case None => Answer(Failure(400, "No file provided"))
      case Some(f) => Commit(UploadDraft(me, roomId, f, caption), roomId, Upload(PopulatedUser(users, me.id)), id, now, storeUp)
  }

  /** A stored upload carries the caption (or the original name) trimmed,
      the image/file classification, the file record with path
      `/uploads/<filename>`, the requester as sender, the eight-key event
      shape and a 201 reply with the stored document. */
  lemma {:induction false} UploadRecord(rooms: seq<Room>, users: seq<User>, me: User, roomId: Id, file: Option<StoredFile>,
                                        caption: Option<string>, id: Id, now: int, storeUp: bool)
    ensures var r := PlanUpload(rooms, users, me, roomId, file, caption, id, now, storeUp);
      r.Insert? <==>
        && RoomIndexById(rooms, roomId).Some? && file.Some? && me.username != "" && storeUp
        && Utf16Length(Trim(UploadText(file.value, caption))) <= MaxMessageLength
    ensures var r := PlanUpload(rooms, users, me, roomId, file, caption, id, now, storeUp);
      r.Insert? ==>
        var f := file.value;
        && ValidMessage(r.msg) && r.msg.message == Trim(UploadText(f, caption))
        && (r.msg.messageType == Image <==> StartsWith(f.mimetype, "image/"))
        && (r.msg.messageType == File <==> !StartsWith(f.mimetype, "image/"))
        && r.msg.file == Some(FileMeta(f.filename, f.originalname, f.mimetype, f.size, "/uploads/" + f.filename))
        && r.msg.senderNick == me.username && r.msg.senderId == me.id && r.msg.room == roomId && r.msg.id == id
        && r.room == roomId && r.payload == UploadPayload(r.msg, PopulatedUser(users, me.id))
        && r.response == Success(201, MessageDoc(r.msg, PopulatedUser(users, me.id)))
  {
    if RoomIndexById(rooms, roomId).Some? && file.Some? {
      var f := file.value;
      var d := UploadDraft(me, roomId, f, caption);
      assert PlanUpload(rooms, users, me, roomId, file, caption, id, now, storeUp)
        == Commit(d, roomId, Upload(PopulatedUser(users, me.id)), id, now, storeUp);
      assert StoredText(d) == Trim(UploadText(f, caption));
      assert AcceptsMessage(d) <==> me.username != "" && Utf16Length(StoredText(d)) <= MaxMessageLength;
    }
  }

  /** Carries out a plan: the insert and the broadcast happen together or not
      at all, and the reply is the plan's. */
  method Carry(db: Db, hub: Hub, plan: Ingest) returns (resp: Response)
    requires db.Valid() && hub.Valid()
    requires plan.Insert? ==> ValidMessage(plan.msg)
    modifies db, hub
    ensures db.Valid() && hub.Valid()
    ensures resp == plan.response
    ensures db.users == old(db.users) && db.rooms == old(db.rooms)
    ensures hub.conns == old(hub.conns) && hub.subs == old(hub.subs) && hub.who == old(hub.who)
    ensures plan.Answer? ==> db.messages == old(db.messages) && hub.outbox == old(hub.outbox)
    ensures plan.Insert? ==>
      && db.messages == old(db.messages) + [plan.msg]
      && hub.outbox == old(hub.outbox) + Fanout(hub.conns, hub.subs, plan.room, None, "new-message", plan.payload)
  {
    if plan.Insert? {
      db.AddMessage(plan.msg);
      hub.Broadcast(plan.room, "new-message", plan.payload);
    }
    resp := plan.response;
  }

  /** `POST /send`. */
  method PostMessageLegacy(db: Db, hub: Hub, message: Option<Json>, id: Id, now: int, storeUp: bool)
    returns (resp: Response)
    requires db.Valid() && hub.Valid()
    modifies db, hub
    ensures db.Valid() && hub.Valid()
    ensures var plan := PlanLegacyPost(old(db.rooms), message, id, now, storeUp);
      && resp == plan.response
      && (plan.Answer? ==> db.messages == old(db.messages) && hub.outbox == old(hub.outbox))
      && (plan.Insert? ==> db.messages == old(db.messages) + [plan.msg]
                           && hub.outbox == old(hub.outbox) + Fanout(hub.conns, hub.subs, plan.room, None, "new-message", plan.payload))
    ensures db.users == old(db.users) && db.rooms == old(db.rooms)
    ensures hub.conns == old(hub.conns) && hub.subs == old(hub.subs) && hub.who == old(hub.who)
  {
    resp := Carry(db, hub, PlanLegacyPost(db.rooms, message, id, now, storeUp));
  }

  /** `POST /api/messages/:roomId`: `body` is the raw field, which passed
      validation; `me` is the user `protect` resolved. */
  method SendMessage(db: Db, hub: Hub, me: User, roomId: Id, body: Option<string>, id: Id, now: int, storeUp: bool)
    returns (resp: Response)
    requires db.Valid() && hub.Valid()
    requires UserById(db.users, me.id) == Some(me)
    requires SendMessageValidation(body).errors == []
    modifies db, hub
    ensures db.Valid() && hub.Valid()
    ensures var plan := PlanRestSend(old(db.rooms), old(db.users), me, roomId, SendMessageValidation(body).value, id, now, storeUp);
      && resp == plan.response
      && (plan.Answer? ==> db.messages == old(db.messages) && hub.outbox == old(hub.outbox))
      && (plan.Insert? ==> db.messages == old(db.messages) + [plan.msg]
                           && hub.outbox == old(hub.outbox) + Fanout(hub.conns, hub.subs, plan.room, None, "new-message", plan.payload))
    ensures db.users == old(db.users) && db.rooms == old(db.rooms)
    ensures hub.conns == old(hub.conns) && hub.subs == old(hub.subs) && hub.who == old(hub.who)
  {
    var text := SendMessageValidation(body).value;
    resp := Carry(db, hub, PlanRestSend(db.rooms, db.users, me, roomId, text, id, now, storeUp));
  }

  /** `POST /api/messages/:roomId/upload`: `file` is what the upload
      middleware let through. */
  method UploadFile(db: Db, hub: Hub, me: User, roomId: Id, file: Option<StoredFile>, caption: Option<string>,
                    id: Id, now: int, storeUp: bool)
    returns (resp: Response)
    requires db.Valid() && hub.Valid()
    requires UserById(db.users, me.id) == Some(me)
    requires file.Some? ==> Admissible(file.value)
    modifies db, hub
    ensures db.Valid() && hub.Valid()
    ensures var plan := PlanUpload(old(db.rooms), old(db.users), me, roomId, file, caption, id, now, storeUp);
      && resp == plan.response
      && (plan.Answer? ==> db.messages == old(db.messages) && hub.outbox == old(hub.outbox))
      && (plan.Insert? ==> db.messages == old(db.messages) + [plan.msg]
                           && hub.outbox == old(hub.outbox) + Fanout(hub.conns, hub.subs, plan.room, None, "new-message", plan.payload))
    ensures db.users == old(db.users) && db.rooms == old(db.rooms)
    ensures hub.conns == old(hub.conns) && hub.subs == old(hub.subs) && hub.who == old(hub.who)
  {
    resp := Carry(db, hub, PlanUpload(db.rooms, db.users, me, roomId, file, caption, id, now, storeUp));
  }

  /** A message accepted on the legacy path is listed by the legacy history. */
  lemma LegacyPostIsListed(rooms: seq<Room>, messages: seq<Message>, message: Option<Json>, id: Id, now: int,
                           timeText: int -> string)
    requires PlanLegacyPost(rooms, message, id, now, true).Insert?
    ensures var m := PlanLegacyPost(rooms, message, id, now, true).msg;
      JStr(LegacyLine(m, timeText)) in GetMessagesLegacy(rooms, messages + [m], timeText).body.value.items
  {
    var m := PlanLegacyPost(rooms, message, id, now, true).msg;
    var i := RoomIndexByName(rooms, DefaultRoomName).value;
    var ms := RoomMessages(messages + [m], rooms[i].id);
    RoomMessagesMembers(messages + [m], rooms[i].id, m);
    var k :| 0 <= k < |ms| && ms[k] == m;
    assert GetMessagesLegacy(rooms, messages + [m], timeText).body.value.items[k] == JStr(LegacyLine(m, timeText));
  }
}
