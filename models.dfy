/** The stored documents of the chat service and the schema rules the database
    layer applies when one is created: defaults, the `trim` setter, `required`,
    `minlength`/`maxlength` (measured in UTF-16 units) and the timestamps. */
module Models {
  import opened Wrappers
  import opened Strings

  /** Object ids, compared as their hexadecimal text. */
  type Id = string

  /** A registered account as far as the chat logic uses it. */
  datatype User = User(id: Id, username: string, isOnline: bool)

  // ---------------------------------------------------------------------------
  // Messages

  const MaxMessageLength := 2000

  datatype MessageType = Text | File | Image {
    /** The stored enumeration value. */
    function Name(): string {
      match this
      case Text => "text"
      case File => "file"
      case Image => "image"
    }
  }

  /** The `file` sub-document of an attachment. */
  datatype FileMeta = FileMeta(filename: string, originalName: string, mimetype: string, size: nat, path: string)

  datatype Message = Message(
    id: Id,
    message: string,
    messageType: MessageType,
    file: Option<FileMeta>,
    senderNick: string,
    senderId: Id,
    room: Id,
    createdAt: int,
    updatedAt: int)

  /** What every stored message satisfies. */
  predicate ValidMessage(m: Message) {
    && Trimmed(m.message)
    && Utf16Length(m.message) <= MaxMessageLength
    && m.senderNick != ""
  }

  /** The fields handed to `Message.create`; None is an absent field. */
  datatype MessageDraft = MessageDraft(
    message: Option<string>,
    messageType: Option<MessageType>,
    file: Option<FileMeta>,
    senderNick: Option<string>,
    senderId: Option<Id>,
    room: Option<Id>)

  /** The text a draft is stored with: the default, then the `trim` setter. */
  function StoredText(d: MessageDraft): string {
    Trim(d.message.GetOr(""))
  }

  /** Whether `Message.create` accepts the draft. */
  predicate AcceptsMessage(d: MessageDraft) {
    && Utf16Length(StoredText(d)) <= MaxMessageLength
    && d.senderNick.Some? && d.senderNick.value != ""
    && d.senderId.Some?
    && d.room.Some?
  }

  /** `Message.create(draft)` at time `now` with the fresh id `id`: the new
      document, or None where validation throws. */
  function NewMessage(d: MessageDraft, id: Id, now: int): (r: Option<Message>)
    ensures r.Some? <==> AcceptsMessage(d)
    ensures r.Some? ==> ValidMessage(r.value)
    ensures r.Some? ==> r.value.message == StoredText(d) && r.value.messageType == d.messageType.GetOr(Text)
    ensures r.Some? ==> r.value.file == d.file && r.value.id == id
    ensures r.Some? ==> Some(r.value.senderNick) == d.senderNick && Some(r.value.senderId) == d.senderId && Some(r.value.room) == d.room
    ensures r.Some? ==> r.value.createdAt == now == r.value.updatedAt
  {
    if AcceptsMessage(d) then
      Some(Message(id, StoredText(d), d.messageType.GetOr(Text), d.file,
                   d.senderNick.value, d.senderId.value, d.room.value, now, now))
    else None
  }

  /** Text that trims to nothing is stored as the empty string, never rejected
      for being empty: the message field is not required. */
  lemma BlankTextIsStoredEmpty(d: MessageDraft, id: Id, now: int)
    requires d.message.Some? && AllSpace(d.message.value)
    requires d.senderNick.Some? && d.senderNick.value != "" && d.senderId.Some? && d.room.Some?
    ensures NewMessage(d, id, now).Some? && NewMessage(d, id, now).value.message == ""
  {
  }

  // ---------------------------------------------------------------------------
  // Rooms

  /** The room every account is placed in, which the legacy endpoints use. */
  const DefaultRoomName := "chat-room"
  const DefaultRoomDescription := "Default emergency communication room"

  const MinRoomName := 2
  const MaxRoomName := 50
  const MaxDescription := 200

  /** A chat room. Names are indexed but not unique, and the participant list
      carries no uniqueness rule of its own. */
  datatype Room = Room(
    id: Id,
    name: string,
    description: string,
    createdBy: Id,
    participants: seq<Id>,
    createdAt: int,
    updatedAt: int)

  predicate ValidRoom(r: Room) {
    && Trimmed(r.name)
    && MinRoomName <= Utf16Length(r.name) <= MaxRoomName
    && Trimmed(r.description)
    && Utf16Length(r.description) <= MaxDescription
  }

  datatype RoomDraft = RoomDraft(name: Option<string>, description: Option<string>, createdBy: Option<Id>, participants: seq<Id>)

  predicate AcceptsRoom(d: RoomDraft) {
    && d.name.Some?
    && MinRoomName <= Utf16Length(Trim(d.name.value)) <= MaxRoomName
    && Utf16Length(Trim(d.description.GetOr(""))) <= MaxDescription
    && d.createdBy.Some?
  }

  /** `Room.create(draft)` at time `now` with the fresh id `id`. */
  function NewRoom(d: RoomDraft, id: Id, now: int): (r: Option<Room>)
    ensures r.Some? <==> AcceptsRoom(d)
    ensures r.Some? ==> ValidRoom(r.value)
    ensures r.Some? ==> r.value.id == id && r.value.name == Trim(d.name.value)
    ensures r.Some? ==> r.value.description == Trim(d.description.GetOr(""))
    ensures r.Some? ==> Some(r.value.createdBy) == d.createdBy && r.value.participants == d.participants
    ensures r.Some? ==> r.value.createdAt == now == r.value.updatedAt
  {
    if AcceptsRoom(d) then
      Some(Room(id, Trim(d.name.value), Trim(d.description.GetOr("")), d.createdBy.value, d.participants, now, now))
    else None
  }

  /** `room.participants = ps; room.save()` at time `now`. */
  function WithParticipants(r: Room, ps: seq<Id>, now: int): (r': Room)
    ensures ValidRoom(r) ==> ValidRoom(r')
    ensures r'.participants == ps && r'.updatedAt == now
    ensures r'.id == r.id && r'.name == r.name && r'.createdBy == r.createdBy && r'.createdAt == r.createdAt
  {
    r.(participants := ps, updatedAt := now)
  }
}
