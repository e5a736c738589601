# DisasterNet chat core in Dafny

This project models the messaging core of DisasterNet, a chat service for emergency communication. It has an Express and Socket.io backend over MongoDB and a React client. The model proves properties of that core.

**Backend.** The model covers:
- the real-time session engine: the handshake gate, presence writes, per-connection room subscriptions, the two broadcast audiences, socket message ingestion and disconnect notices;
- the HTTP message paths: the upload filter and limit, the send validator, the two history endpoints, and the legacy, REST and upload write paths;
- rooms: the create validator, the name-uniqueness check, listings, join and leave;
- accounts: the register and login validators, username normalisation, the "ensure `chat-room` exists and holds the user" block, and presence on login and logout;
- the `protect` and `validate` middleware;
- the message and room schemas.

**Client.** The model covers the decision logic of the chat screen, the room sidebar, the message composer, the message list and the sign-in and sign-up page.

**How it is modelled:**
- The database is a class `Store.Db` that holds users, rooms and messages as sequences.
- The Socket.io server is a class `SocketEngine.Hub`. It holds the live connections in connection order, a map from each connection to its subscribed room ids, a map from each connection to its user, and an outbox of `(recipient, event, data)` deliveries in delivery order.
- Some things become parameters:
  - `jwt.verify` and token signing;
  - `comparePassword`;
  - fresh ids, the clock and the locale time formatter;
  - whether a database write succeeds (`storeUp`).
- Each HTTP handler is split in two:
  - a pure *plan* function (`PlanLegacyPost`, `PlanRestSend`, `PlanUpload`, `PlanCreateRoom`, `EnsureDefaultRoom`) computes its fixed chain of guards;
  - a method carries the plan out against the store and the hub.
- Wire values are a `Json` datatype. `Wire.Get`, `Wire.Truthy` and `Wire.AsString` give JavaScript's property access, truthiness and type test.
- Text is measured three ways:
  - Mongoose and the browser compare JavaScript lengths in UTF-16 units (`Strings.Utf16Length`);
  - express-validator's `isLength` counts code points but skips U+FE0E and U+FE0F (`Strings.ValidatorLength`);
  - both trim with JavaScript's white-space set (`Strings.Trim`).
- Client components are classes whose fields are the React state. Each handler is a method. Calls the component makes outward (socket emits, HTTP requests, `onSelectRoom`, `onSend`, `alert`) are appended to sequence fields.

**Behaviour of the code worth knowing, stated by lemmas:**
- The `new-message` events do not share one shape. The upload event carries eight keys. The legacy and REST events carry six, without `messageType` and `file`, and the REST event expands `senderId` into `{ _id, username }`. See `MessageController.PayloadShapes` and `MessageList.FileShownFor`.
- A blank live send is dropped silently, and the sender hears nothing (`SocketEngine.PlanSend`).
- Socket joins and sends are not checked against stored participation or subscription. `SocketEngine.Hub.JoinRoom` consults no room, and `SocketEngine.Hub.SendMessage` reaches the room whether or not the sender subscribed.
- A disconnect sends only `user-left` and no typing notice (`SocketEngine.LeftNoticesAreUserLeft`).

**Client and server disagreements that the lemmas make explicit:**
- The client and the register validator measure passwords differently (`AuthPage.AstralPasswordPassesFormOnly`).
- The REST validator and the message schema measure text differently. A request that passes validation can still fail at the schema (`MessageController.ValidatedSendCanFail`).
- The client never asks to join a room it has just created (`RoomList.CreatedRoomNeedsNoJoin`).
- Text the composer sends over the socket is stored exactly as sent (`ChatRoom.ComposedTextIsStored`).

## Model

| member | source | states |
|---|---|---|
| SocketEngine.Handshake | backend/src/socket/index.js:11-29 | A missing or falsy token gives "Authentication required". A non-string token or a failed verification gives "Authentication failed". A verified id with no user gives "User not found". Otherwise the connection is admitted as exactly the stored user with that id. |
| SocketEngine.Hub.Connect | backend/src/socket/index.js:11-35 | The outcome is the handshake's. A refusal changes no registry entry and no user. An admission registers the connection with no rooms and the resolved user, and writes `isOnline = true` for that user. No delivery is made and rooms and messages are untouched. |
| SocketEngine.Fanout | backend/src/socket/index.js:38-105 | Every delivery of one emit goes to a live connection subscribed to the room, other than the excluded one, and carries the emitted event and data. |
| SocketEngine.FanoutAudience | backend/src/socket/index.js:43-46 | Both directions: a connection receives the emit if and only if it is live, subscribed to the room and not the actor. `socket.to` never reaches the actor; `io.to` (no exclusion) reaches every subscriber. |
| SocketEngine.FanoutOnce | backend/src/socket/index.js:86 | An emit reaches each connection at most once. |
| SocketEngine.PresenceData | backend/src/socket/index.js:43-46 | user-joined, user-left and user-typing carry exactly the keys `userId` and `username`. |
| SocketEngine.StopTypingData | backend/src/socket/index.js:102-104 | user-stop-typing carries exactly the key `userId`. |
| SocketEngine.ErrorData | backend/src/socket/index.js:89 | The error event carries exactly `message`, with the given text. |
| SocketEngine.FileJson | backend/src/models/Message.js:16-22 | The file sub-document carries exactly filename, originalName, mimetype, size and path. |
| SocketEngine.SocketPayload | backend/src/socket/index.js:74-83 | The socket new-message event has exactly the keys `_id, message, messageType, file, senderNick, senderId, room, createdAt`. `file` is null when there is no attachment, and the other values are the stored message's. |
| SocketEngine.PlanSend | backend/src/socket/index.js:61-90 | Undefined or null data fails, because destructuring throws. The send is ignored if and only if the text is falsy or all white space. Truthy non-string text fails. A save stores the trimmed, non-empty text as type text with no file, under the connection user's name and id, in the given room. It saves only when the write succeeds. |
| SocketEngine.SendAccepted | backend/src/socket/index.js:63-72 | A string room id and text that trims to non-empty text within 2000 units, from a user with a name, are always saved when the write succeeds. |
| SocketEngine.LeftNotices | backend/src/socket/index.js:113-118 | The `user-left` deliveries of the disconnect loop: one fan-out per room of `socket.rooms`, in order, excluding the leaving connection. |
| SocketEngine.LeftNoticesSnoc | backend/src/socket/index.js:113-118 | The disconnect notices for one more room are the earlier notices followed by that room's fan-out. |
| SocketEngine.LeftNoticesAreUserLeft | backend/src/socket/index.js:112-118 | Every disconnect delivery is user-left with the user's data. It never goes to the leaving connection, and it goes only to a subscriber of one of the given rooms. No user-stop-typing is sent. |
| SocketEngine.LeftNoticesReach | backend/src/socket/index.js:112-118 | Every other live subscriber of each given room receives user-left. |
| SocketEngine.Hub.constructor | backend/src/socket/index.js:9 | The registry starts with no connections, no subscriptions and an empty outbox. |
| SocketEngine.Hub.Broadcast | backend/src/socket/index.js:86 | `io.to(room).emit` appends the fan-out to every subscriber, the sender included, and changes no registry entry. |
| SocketEngine.Hub.JoinRoom | backend/src/socket/index.js:38-47 | The room is added to the connection's set without consulting persisted participants. user-joined with `{userId, username}` goes to the other subscribers only. Nothing else changes. |
| SocketEngine.Hub.LeaveRoom | backend/src/socket/index.js:50-58 | The room is removed from the connection's set. user-left goes to the remaining other subscribers. Nothing else changes. |
| SocketEngine.Hub.Typing | backend/src/socket/index.js:94-99 | user-typing goes to the other subscribers. No state changes. |
| SocketEngine.Hub.StopTyping | backend/src/socket/index.js:101-105 | user-stop-typing with `{userId}` goes to the other subscribers. No state changes. |
| SocketEngine.Hub.SendMessage | backend/src/socket/index.js:61-91 | An ignored send stores and delivers nothing. A failure stores nothing and delivers only the error event to the sender. A save appends the message and delivers new-message to every subscriber of the target room, whether or not the sender subscribed. |
| SocketEngine.Hub.Disconnect | backend/src/socket/index.js:108-119 | The user is written offline. One user-left emit is made per room of `socket.rooms`, in order. The connection then leaves the registry, and rooms and messages are untouched. |
| SocketEngine.Hub.NotifyLeft | backend/src/socket/index.js:113-118 | The `forEach` loop appends exactly the user-left notices for the rooms, in order. |
| SocketEngine.Unregister | backend/src/socket/index.js:108 | Removing a connection keeps the registry well formed, and the connection is gone from every part of it. |
| Models.AcceptsMessage | backend/src/models/Message.js:5-36 | The schema accepts a message draft when the trimmed text has at most 2000 UTF-16 units, the sender's nickname is present and non-empty, and the sender and room are set. |
| Models.NewMessage | backend/src/models/Message.js:3-41 | A draft is stored if and only if its trimmed text is at most 2000 units and a non-empty sender name, a sender id and a room are given. The document then has the trimmed text (default ""), the type (default text), the optional file, and both timestamps equal to the creation time. |
| Models.BlankTextIsStoredEmpty | backend/src/models/Message.js:5-10 | Blank text is stored as "" and is not rejected: the text field is not required. |
| Models.AcceptsRoom | backend/src/models/Room.js:5-22 | The schema accepts a room draft when the trimmed name has 2 to 50 UTF-16 units, the trimmed description at most 200, and the creator is set. |
| Models.NewRoom | backend/src/models/Room.js:3-33 | A draft is stored if and only if the trimmed name is 2 to 50 units, the trimmed description (default "") is at most 200 units, and a creator is given. The participants are kept as given, with no uniqueness rule. |
| Models.WithParticipants | backend/src/controllers/roomController.js:153-156 | Saving a new participant list keeps the room valid, sets `updatedAt`, and keeps its identity, name and creator. |
| Store.Db.AddMessage | backend/src/socket/index.js:67-72 | An insert appends the document and keeps every stored room and message valid. |
| Store.Db.AddUser | backend/src/controllers/authController.js:55 | `User.create` appends the account. |
| Store.Db.AddRoom | backend/src/controllers/roomController.js:36-41 | `Room.create` appends the room and keeps the store valid. |
| Store.Db.PutRoom | backend/src/controllers/roomController.js:123 | `room.save()` replaces the room at its position and nothing else. |
| Store.Db.SetPresence | backend/src/socket/index.js:35 | `findByIdAndUpdate` writes the presence flag and nothing else. |
| Store.UserById | backend/src/socket/index.js:19 | `User.findById` finds a stored user with that id, and finds none if and only if no user has it. |
| Store.UserByIdAppend | backend/src/controllers/authController.js:55 | A new account with a fresh id is found under its id, and every other lookup is unchanged. |
| Store.UserByName | backend/src/controllers/authController.js:46 | `findOne({ username })` finds a user with that name, and finds none if and only if there is none. |
| Store.RoomIndexById | backend/src/controllers/roomController.js:107 | `Room.findById` gives the position of a room with that id, and none if and only if no room has it. |
| Store.RoomIndexByName | backend/src/controllers/roomController.js:28 | `findOne({ name })` gives the position of a room with that name, and none if and only if no room has it. |
| Store.SetOnline | backend/src/socket/index.js:35 | Exactly the users with that id get the new flag. Every id and name is kept. |
| Store.SetOnlineReadBack | backend/src/socket/index.js:110 | After the write, the user reads back with the new flag and every other user reads back as before. |
| Store.PopulatedUser | backend/src/controllers/messageController.js:76 | `populate('senderId', 'username')` gives `{ _id, username }` for an existing user and null for a missing one. |
| MessageController.FileFilter | backend/src/controllers/messageController.js:19-37 | A type is accepted if and only if it is one of the 23 listed MIME types. Any other is rejected with "File type <mimetype> is not allowed". |
| MessageController.ReceiveUpload | backend/src/controllers/messageController.js:39-43 | No part means no file. A disallowed type is rejected first, then a size over 50·1024·1024 bytes. A received file is always admissible and keeps the part's name, type and size under the generated filename. |
| MessageController.UploadLimitBoundary | backend/src/controllers/messageController.js:42 | 52428800 bytes pass and 52428801 bytes are rejected. |
| MessageController.SendMessageValidation | backend/src/controllers/messageController.js:48-55 | The field is trimmed, and an absent field reads as "". There is no error if and only if the trimmed text is non-empty and at most 2000 validator characters. Each failure reports its own message. |
| MessageController.LegacyPayload | backend/src/controllers/messageController.js:146-153 | The legacy event has exactly six keys and the raw sender id. |
| MessageController.RestPayload | backend/src/controllers/messageController.js:192-199 | The REST event has the same six keys, with the sender expanded. |
| MessageController.UploadPayload | backend/src/controllers/messageController.js:257-266 | The upload event has the eight keys of the socket event, with the sender expanded, the type, and the file record or null. |
| MessageController.PayloadShapes | backend/src/controllers/messageController.js:146-266 | The legacy and REST key sets are the socket event's without `messageType` and `file`. The upload key set equals the socket event's. |
| MessageController.MessageDoc | backend/src/controllers/messageController.js:202-205 | A stored document has the sender reference as given and carries `file` only when there is an attachment. |
| MessageController.RoomMessages | backend/src/controllers/messageController.js:74-77 | The history is a permutation of the room's messages, in ascending `createdAt`. |
| MessageController.RoomMessagesMembers | backend/src/controllers/messageController.js:74 | A message is in the history if and only if it is stored and belongs to the room. |
| MessageController.GetMessages | backend/src/controllers/messageController.js:62-86 | An unknown room gives 404 "Room not found". Otherwise the reply is 200 with the room's history, each sender expanded. |
| MessageController.GetMessagesItems | backend/src/controllers/messageController.js:62-86 | A successful reply means the room exists, and its entries are the room's history rendered one for one. |
| MessageController.GetMessagesListing | backend/src/controllers/messageController.js:62-86 | A successful reply lists one entry per message of the room. Every such message's document is in it and every entry is one of them. The entries' `createdAt` never decreases. |
| MessageController.MessageDocCreatedAt | backend/src/controllers/messageController.js:74-77 | A message document carries the message's `createdAt`. |
| MessageController.LegacyLine | backend/src/controllers/messageController.js:106-108 | One legacy history line: "Received message at <time> from <nick>: <text>", with the time rendered by the locale parameter. |
| MessageController.GetMessagesLegacy | backend/src/controllers/messageController.js:93-115 | The reply is always 200 with an array of strings: [] without `chat-room`. Otherwise there is one "Received message at <time> from <nick>: <text>" per message of that room, oldest first. |
| MessageController.Commit | backend/src/controllers/messageController.js:136-159 | The insert and the emit happen if and only if the schema accepts the draft and the write succeeds. Otherwise the error handler is reached. The payload and reply are the path's own. |
| MessageController.DecodeLegacy | backend/src/controllers/messageController.js:124-128 | Falsy or blank text is undecodable. Truthy non-string text throws. Otherwise the string decodes. |
| MessageController.PlanLegacyPost | backend/src/controllers/messageController.js:122-160 | Undecodable text gives 400 with the JSON string "failed to decode", checked before the room. A throw reaches the error handler. A missing `chat-room` gives 500 "Room not found". Otherwise the draft goes to the commit. |
| MessageController.LegacyPostRecord | backend/src/controllers/messageController.js:136-156 | A legacy post is stored if and only if its text decodes, `chat-room` exists, the trimmed text fits and the write succeeds. It is stored trimmed as "Anonymous" on behalf of the room's creator, emitted in the legacy shape to that room, and answered 200 with an empty body. |
| MessageController.PlanRestSend | backend/src/controllers/messageController.js:167-209 | An unknown room gives 404 "Room not found". Otherwise the trimmed text goes to the commit under the requester's name and id, in the REST shape. |
| MessageController.TrimmedDraftAccepted | backend/src/controllers/messageController.js:180-185 | A draft of trimmed text is accepted if and only if the text fits and the sender has a name. |
| MessageController.RestSendStored | backend/src/controllers/messageController.js:172-185 | A REST send is stored if and only if the room exists, the trimmed text fits the schema, the user has a name and the write succeeds. Text too long for the schema reaches the error handler. |
| MessageController.RestSendRecord | backend/src/controllers/messageController.js:180-205 | A stored REST send holds the trimmed text under the requester's name and id in that room. It is emitted in the REST shape and answered 201 with the expanded document. |
| MessageController.ValidatedSendCanFail | backend/src/controllers/messageController.js:53 | 1001 emoji pass the validator (1001 characters) but not the schema (2002 units), so the send reaches the error handler. |
| MessageController.UploadText | backend/src/controllers/messageController.js:238 | An upload is stored with its caption, or with the file's original name when the caption is absent or empty. |
| MessageController.UploadKind | backend/src/controllers/messageController.js:235-239 | The type is image if and only if the MIME type starts with `image/`, and file otherwise. |
| MessageController.PlanUpload | backend/src/controllers/messageController.js:216-276 | An unknown room gives 404, checked before a missing file, which gives 400 "No file provided". Otherwise the upload draft goes to the commit in the upload shape. |
| MessageController.UploadRecord | backend/src/controllers/messageController.js:235-272 | An upload is stored if and only if the room and the file exist, the user has a name, the trimmed caption (or original name) fits and the write succeeds. The stored message has the image/file type from the MIME type, the file record with path `/uploads/<filename>` and the requester as sender. It is emitted in the eight-key shape and answered 201. |
| MessageController.Carry | backend/src/controllers/messageController.js:180-205 | The insert and the broadcast happen together or not at all, and the reply is the plan's. |
| MessageController.PostMessageLegacy | backend/src/controllers/messageController.js:122-160 | `POST /send` stores and emits exactly what the legacy plan inserts, to the default room's subscribers. |
| MessageController.SendMessage | backend/src/controllers/messageController.js:167-209 | The REST send, behind `protect` and the validator, stores and emits exactly what its plan inserts. |
| MessageController.UploadFile | backend/src/controllers/messageController.js:216-276 | The upload, behind `protect` and the upload middleware, stores and emits exactly what its plan inserts. |
| MessageController.LegacyPostIsListed | backend/src/controllers/messageController.js:101-111 | A message accepted by `POST /send` appears in the `GET /messages` listing as "Received message at <time> from Anonymous: <text>". |
| RoomController.AddParticipant | backend/src/controllers/roomController.js:116-124 | Afterwards the user is listed. A listed user leaves the list unchanged, and a missing user is appended. |
| RoomController.AddParticipantIdempotent | backend/src/controllers/roomController.js:117-124 | Joining twice is joining once. |
| RoomController.AddParticipantDistinct | backend/src/controllers/roomController.js:121-123 | Joining never creates a duplicate. |
| RoomController.RemoveParticipant | backend/src/controllers/roomController.js:153-155 | Every occurrence of the user goes. Every other participant keeps its count, and an absent user leaves the list unchanged. |
| RoomController.RemoveParticipantConcat | backend/src/controllers/roomController.js:153-155 | Removal works piecewise, so the survivors keep their order. |
| RoomController.RemoveParticipantFacts | backend/src/controllers/roomController.js:153-155 | The user is gone, every other participant keeps its count, and an absent user leaves the list unchanged. |
| RoomController.RemoveAfterAdd | backend/src/controllers/roomController.js:122-155 | Leaving after joining gives the same list as leaving alone. |
| RoomController.CreateRoomValidation | backend/src/controllers/roomController.js:7-17 | The name is trimmed and a present description is trimmed. There is no error if and only if the name has 2 to 50 validator characters and a present description has at most 200. |
| RoomController.CreateRoomValidationMessages | backend/src/controllers/roomController.js:7-17 | Each rule reports its own message if and only if it fails. |
| RoomController.RoomErrorsDiffer | backend/src/controllers/roomController.js:11-16 | The two rules' messages are different texts. |
| RoomController.RoomDoc | backend/src/models/Room.js:3-33 | A room document: `_id`, `name`, `description`, `createdBy`, `participants`, `createdAt` and `updatedAt`, with the two references rendered as given. |
| RoomController.PopulatedRoomDoc | backend/src/controllers/roomController.js:59-61 | The document `getRooms` and `getRoom` send: the creator expanded to `{ _id, username }` and the participants expanded. |
| RoomController.IdList | backend/src/controllers/roomController.js:43-46 | The unexpanded participants are each id as a string, in order. |
| RoomController.PopulatedParticipants | backend/src/controllers/roomController.js:61 | No more entries than stored participants, each with exactly the keys `_id`, `username` and `isOnline`. |
| RoomController.PopulatedParticipantsKept | backend/src/controllers/roomController.js:61 | The populated list has one entry per participant that still exists (the stored list filtered by existence), in stored order. Each entry is that user's `{ _id, username, isOnline }`. |
| RoomController.RenderedCons | backend/src/controllers/roomController.js:61 | A rendered head followed by a rendered tail is a rendered list. |
| RoomController.PlanCreateRoom | backend/src/controllers/roomController.js:24-50 | A taken name gives 400 "Room with this name already exists" and creates nothing. Otherwise the room is created if and only if the schema accepts it. It has the trimmed name, the description (default "") and the requester as creator and sole participant, and the reply is 201 with it. |
| RoomController.CreatedRoomIsFoundByName | backend/src/controllers/roomController.js:28-41 | The created room is afterwards exactly the first room found under its name. |
| RoomController.NameFoundAtEnd | backend/src/controllers/roomController.js:28-41 | When no room had the name, the appended room is the one found under it. |
| RoomController.CreateRoom | backend/src/controllers/roomController.js:24-50 | `POST /api/rooms` appends exactly the planned room, or nothing. |
| RoomController.NewestFirst | backend/src/controllers/roomController.js:59-62 | The listing is a permutation of all rooms, newest first. |
| RoomController.GetRooms | backend/src/controllers/roomController.js:57-71 | The reply is 200 with every room, newest first, fully expanded. |
| RoomController.GetRoomsListing | backend/src/controllers/roomController.js:57-71 | The list has one entry per stored room. Every stored room's document is in it and every entry is one of them. The entries' `createdAt` never increases down the list. |
| RoomController.RoomDocCreatedAt | backend/src/controllers/roomController.js:59-62 | A room document carries the room's `createdAt`. |
| RoomController.GetRoom | backend/src/controllers/roomController.js:78-98 | An unknown id gives 404 "Room not found". Otherwise the reply is 200 with the expanded room. |
| RoomController.GetRoomAnswersId | backend/src/controllers/roomController.js:78-98 | A successful reply means the room exists, and the document sent carries the requested `_id`. |
| RoomController.JoinRoom | backend/src/controllers/roomController.js:105-135 | An unknown id gives 404 and changes nothing. A listed user causes no write. A missing user is appended and saved. Either way the user is listed afterwards, and the reply shows the participants expanded. |
| RoomController.LeaveRoom | backend/src/controllers/roomController.js:142-165 | An unknown id gives 404 and changes nothing. A user who is listed has every occurrence removed, and the room is saved with a new `updatedAt`. A user who is not listed leaves the rooms unchanged, because the filtered array equals the stored one and the save writes nothing. Either way the user is not listed afterwards, and the reply is 200 "Left room successfully". |
| AuthController.Messages | backend/src/controllers/authController.js:19-34 | `validate` receives one message per finding, in order. |
| AuthController.ReportsOfThree | backend/src/controllers/authController.js:19-29 | Three distinct checks each report once, only when failing, in declaration order. |
| AuthController.RegisterValidation | backend/src/controllers/authController.js:19-29 | The username is trimmed and the password is not. There is no finding if and only if the name has 3 to 30 validator characters from `[a-zA-Z0-9_]` and the password has at least 6. |
| AuthController.RegisterFindings | backend/src/controllers/authController.js:19-29 | Each register check reports if and only if it fails. When all three fail they report in declaration order. |
| AuthController.LoginValidation | backend/src/controllers/authController.js:31-34 | There is no finding if and only if the trimmed name and the password are non-empty. Each missing field reports its own finding. |
| AuthController.NormalizeUsername | backend/src/controllers/authController.js:46 | The normalised name is trimmed and has no upper-case letter. |
| AuthController.NormalizeUsernameIdempotent | backend/src/controllers/authController.js:46-55 | Normalising twice is normalising once, so the lookup and the stored name agree. |
| AuthController.RegisteredNameIsWord | backend/src/controllers/authController.js:55 | A validated name is stored as its lower-case form, which is still a word of 3 to 30 characters. |
| AuthController.DefaultRoomCreated | backend/src/controllers/authController.js:60-65 | Creating `chat-room` with its fixed description always passes the schema. |
| AuthController.ShortRoomAccepted | backend/src/models/Room.js:5-17 | A trimmed name of 2 to 25 characters and a trimmed description of at most 100 pass the room schema, whatever the characters. |
| AuthController.ShortRoomCreated | backend/src/models/Room.js:5-33 | Such a room is stored unchanged, with the creator as its only participant. |
| AuthController.DefaultRoomValid | backend/src/controllers/authController.js:60-65 | The created default room is a valid room. |
| AuthController.EnsureDefaultRoom | backend/src/controllers/authController.js:58-69 | `chat-room` is created with the user as creator and only participant when it is missing. Otherwise the user is appended only when absent. |
| AuthController.DefaultRoomHoldsUser | backend/src/controllers/authController.js:58-69 | Whatever the rooms were, afterwards `chat-room` is found by name and lists the user. |
| AuthController.EnsureDefaultRoomSettles | backend/src/controllers/authController.js:114-125 | Enrolling the same user again writes nothing. |
| AuthController.EnsureDefaultRoomValid | backend/src/controllers/authController.js:58-69 | Enrolment keeps every stored room valid and modifies only an existing position. |
| AuthController.Authenticate | backend/src/controllers/authController.js:97-111 | A user is found if and only if the normalised name exists and the password matches. An unknown name and a wrong password give the same None. |
| AuthController.SaveDefaultRoom | backend/src/controllers/authController.js:60-68 | The enrolment write is applied and keeps the store valid. |
| AuthController.AuthData | backend/src/controllers/authController.js:74-82 | The data of a successful register or login: the user's JSON and a token signed for the user's id. |
| AuthController.Register | backend/src/controllers/authController.js:41-86 | A taken normalised name gives 400 "Username is already taken" and creates nothing. Otherwise the account is created under the normalised name, enrolled in `chat-room` and set online, and the reply is 201 with the user and token. |
| AuthController.RegisteredUserReadsBack | backend/src/controllers/authController.js:55-72 | After registering, the new account reads back online and every other account is unchanged. |
| AuthController.Login | backend/src/controllers/authController.js:93-142 | Bad credentials give 401 "Invalid username or password" and change nothing. Otherwise the user is enrolled in `chat-room` and set online, and the reply is 200 with the user and token. |
| AuthController.Logout | backend/src/controllers/authController.js:166-176 | The user is set offline, nothing else changes, and the reply is 200 "Logged out successfully". |
| AuthMiddleware.ExtractToken | backend/src/middleware/auth.js:12-17 | A token exists if and only if the header starts with "Bearer" and its second space-separated piece is non-empty. The token is that piece. |
| AuthMiddleware.BearerPrefixToken | backend/src/middleware/auth.js:14 | Any scheme word that only starts with "Bearer", then one space and a token, yields the token. The test is looser than section 2.1 of RFC 6750. |
| AuthMiddleware.BearerHeaderToken | backend/src/middleware/auth.js:12-17 | The RFC 6750 form "Bearer <token>" yields exactly the token. |
| AuthMiddleware.BearerHeaderTrailer | backend/src/middleware/auth.js:16 | Anything after a further space is ignored. |
| AuthMiddleware.LooseBearerPrefix | backend/src/middleware/auth.js:14 | A worked example of BearerPrefixToken: "Bearerx abc" yields "abc". |
| AuthMiddleware.RejectedBearerForms | backend/src/middleware/auth.js:14-16 | "bearer abc" (wrong case) and "Bearer  abc" (two spaces) yield no token. |
| AuthMiddleware.Protect | backend/src/middleware/auth.js:8-44 | No token gives 401 "Not authorized, no token provided". A failed verification gives 401 "Not authorized, token invalid". A missing user gives 401 "User no longer exists". Only on success is `next` called, exactly once, with `req.user` the stored user. |
| AuthMiddleware.ProtectPassesExactly | backend/src/middleware/auth.js:26-37 | `req.user` is u if and only if the header carries a token that verifies to u's id and u is stored under it. |
| ValidateMiddleware.Validate | backend/src/middleware/validate.js:6-18 | No errors means `next` is called once and there is no reply. Otherwise the reply is 400 with `success: false` and the messages joined by ", ", and `next` is not called. |
| ValidateMiddleware.SingleErrorVerbatim | backend/src/middleware/validate.js:11-14 | One error is reported as its own message. |
| ValidateMiddleware.ErrorTextGrows | backend/src/middleware/validate.js:11-14 | Messages are listed in order: one more message appends one separator and that message. |
| ValidateMiddleware.SeparatorCount | backend/src/middleware/validate.js:13-14 | When no message has a comma, k messages are joined by exactly k−1 separators. |
| ValidateMiddleware.SeparatorHasOneComma | backend/src/middleware/validate.js:14 | The separator ", " holds exactly one comma. |
| Strings.Trim | backend/src/socket/index.js:65 | `trim()` gives a trimmed value no longer than its input, and gives "" if and only if the input is all white space. |
| Strings.LeadingSpace | backend/src/socket/index.js:65 | The counted prefix is all white space, and the character after it is not. |
| Strings.TrailingSpace | backend/src/socket/index.js:65 | The counted suffix is all white space, and the character before it is not. |
| Strings.TrimStart | backend/src/socket/index.js:65 | After the leading white space is dropped, the result does not start with white space. |
| Strings.TrimEnd | backend/src/socket/index.js:65 | After the trailing white space is dropped, the result does not end with white space. |
| Strings.TrimFacts | backend/src/socket/index.js:65 | Trimming both ends gives a trimmed string no longer than its input, empty exactly for blank input. |
| Strings.TrimStartOfTrimmed | backend/src/socket/index.js:65 | Text that does not start with white space is kept at the start. |
| Strings.TrimEndOfTrimmed | backend/src/socket/index.js:65 | Text that does not end with white space is kept at the end. |
| Strings.TrimOfTrimmed | backend/src/socket/index.js:65 | Trimmed text is its own trim. |
| Strings.TrimKeepsChars | backend/src/socket/index.js:65 | Trimming introduces no new characters. |
| Strings.TrimIdempotent | backend/src/controllers/messageController.js:181 | Trimming validated, already trimmed text again changes nothing. |
| Strings.ReplaceFirst | frontend/src/components/Chat/MessageList.jsx:14 | `replace` with a string pattern changes nothing when the pattern is absent, and rewrites a leading pattern occurrence. |
| Strings.Split | backend/src/middleware/auth.js:16 | `split(' ')` gives at least one piece, none of which contains the separator. |
| Strings.SplitJoin | backend/src/middleware/auth.js:16 | Rejoining the pieces with the separator gives back the header. |
| Strings.SplitAbsent | backend/src/middleware/auth.js:16 | Text without the separator splits into itself alone. |
| Strings.SplitAtFirst | backend/src/middleware/auth.js:16 | The first piece ends at the first separator, and the rest is split on. |
| Strings.JoinSnoc | backend/src/middleware/validate.js:14 | `join` puts exactly one separator before each further part. |
| Strings.JoinCountChar | backend/src/middleware/validate.js:13-14 | Comma-free parts joined by a separator give k−1 separators' worth of commas. |
| Strings.CountCharConcat | backend/src/middleware/validate.js:13-14 | Character counts add up over concatenation. |
| Strings.CountCharAbsent | backend/src/middleware/validate.js:13-14 | An absent character is counted zero times. |
| Strings.ToLower | backend/src/controllers/authController.js:46 | Lower-casing keeps the length and maps each letter A–Z to a–z and U+212A KELVIN SIGN to `k`. |
| Strings.ToLowerIdempotent | backend/src/controllers/authController.js:46 | Lower-casing twice is lower-casing once. |
| Strings.ToLowerKeeps | backend/src/controllers/authController.js:46 | Lower-casing keeps the UTF-16 length and keeps trimmed text trimmed. |
| Strings.LowerOfWord | backend/src/controllers/authController.js:22-26 | A word stays a word when lower-cased, and a word is trimmed. |
| Strings.WordIsPlain | backend/src/controllers/authController.js:22-26 | A word is trimmed, and all three length measures agree on it. |
| Strings.LengthsAgree | backend/src/controllers/messageController.js:53 | On BMP text without variation selectors, the validator's and the schema's lengths agree. |
| Strings.AstralLengths | backend/src/controllers/messageController.js:53 | Characters outside the BMP count twice in the schema's measure and once in the validator's. |
| Strings.Utf16LengthBounds | backend/src/controllers/messageController.js:53 | The validator length is at most the code-point count, which is at most the UTF-16 length, which is at most twice the code-point count. |
| Strings.Utf16LengthConcat | backend/src/models/Message.js:5-10 | UTF-16 lengths add up over concatenation. |
| Strings.Utf16LengthSplit | backend/src/models/Message.js:5-10 | Neither part of a split is longer than the whole. |
| Strings.Utf16LengthPointwise | backend/src/models/Message.js:5-10 | Texts that agree position by position on being astral have the same UTF-16 length. |
| Strings.Utf16LengthTrim | frontend/src/components/Chat/MessageInput.jsx:31 | Trimming never lengthens text. |
| Strings.NatToString | frontend/src/components/Chat/MessageList.jsx:8 | `bytes + ' B'` prints at least one decimal digit. |
| Strings.NatToStringRoundTrip | frontend/src/components/Chat/MessageList.jsx:8 | The printed count reads back as the count. |
| Seqs.IndexWhere | backend/src/controllers/roomController.js:28 | `findOne` returns the first match, and none if and only if nothing matches. |
| Seqs.FindWhere | backend/src/controllers/roomController.js:117-119 | `find` or `some` gives a matching element, and gives none if and only if nothing matches. |
| Seqs.Filter | backend/src/controllers/roomController.js:153-155 | `filter` keeps exactly the elements that pass, in order. |
| Seqs.FilterCount | backend/src/controllers/roomController.js:153-155 | Filtering keeps each surviving value's number of occurrences. |
| Seqs.FilterConcat | backend/src/controllers/roomController.js:153-155 | Filtering works piecewise over concatenation. |
| Seqs.FilterAllPass | backend/src/controllers/roomController.js:153-155 | When every element passes, the list is unchanged. |
| Seqs.FilterIdempotent | backend/src/controllers/roomController.js:153-155 | Filtering twice is filtering once. |
| Seqs.FilterMembers | backend/src/controllers/roomController.js:153-155 | A value survives if and only if it was present and passes. |
| Seqs.FilterDistinct | backend/src/controllers/roomController.js:153-155 | Filtering a list without duplicates leaves one without duplicates. |
| Seqs.SortBy | backend/src/controllers/messageController.js:75 | `sort` returns a permutation ordered by the key. |
| Seqs.InsertBy | backend/src/controllers/messageController.js:75 | Inserting adds exactly the element. |
| Seqs.InsertBySorted | backend/src/controllers/messageController.js:75 | Inserting into an ordered list keeps it ordered. |
| Seqs.SortByMembers | backend/src/controllers/messageController.js:75 | Sorting keeps exactly the elements. |
| ChatRoom.AddTypist | frontend/src/components/Chat/ChatRoom.jsx:58-61 | A user id already listed leaves the list unchanged. Otherwise the notice is appended. |
| ChatRoom.AddTypistUnique | frontend/src/components/Chat/ChatRoom.jsx:58-61 | Adding keeps user ids unique, and the user is listed afterwards. |
| ChatRoom.RemoveTypist | frontend/src/components/Chat/ChatRoom.jsx:64 | Every entry with the id goes, every other entry keeps its count, and an absent id leaves the list unchanged. |
| ChatRoom.RemoveTypistFacts | frontend/src/components/Chat/ChatRoom.jsx:64 | Every other entry keeps its count, and an absent id leaves the list unchanged. |
| ChatRoom.RemoveTypistUnique | frontend/src/components/Chat/ChatRoom.jsx:64 | Removal keeps user ids unique. |
| ChatRoom.UniqueTail | frontend/src/components/Chat/ChatRoom.jsx:58-64 | The tail of a list with unique ids has unique ids, none of them the head's. |
| ChatRoom.UniqueCons | frontend/src/components/Chat/ChatRoom.jsx:58-64 | A new id in front of a list with unique ids keeps them unique. |
| ChatRoom.RemoveTypistConcat | frontend/src/components/Chat/ChatRoom.jsx:64 | Removal works piecewise, so the remaining entries keep their order. |
| ChatRoom.RemoveAfterAddTypist | frontend/src/components/Chat/ChatRoom.jsx:58-64 | A stop after a start leaves the list as the stop alone would. |
| ChatRoom.Names | frontend/src/components/Chat/ChatRoom.jsx:170 | There is one name per typist, in order. |
| ChatRoom.TypingText | frontend/src/components/Chat/ChatRoom.jsx:168-172 | The indicator is shown if and only if someone is typing. |
| ChatRoom.TypingTextOne | frontend/src/components/Chat/ChatRoom.jsx:170-171 | One typist reads "<name> is typing...". |
| ChatRoom.TypingTextMany | frontend/src/components/Chat/ChatRoom.jsx:170-171 | Several typists with comma-free names read "... are typing...", and the names are joined with exactly one comma fewer than there are typists. |
| ChatRoom.SendData | frontend/src/components/Chat/ChatRoom.jsx:82 | `{ roomId, message }` reads back the room id, or undefined, and the text. |
| ChatRoom.ChatView.constructor | frontend/src/components/Chat/ChatRoom.jsx:14-18 | There is no active room, no messages, no typists, no loading and the sidebar is closed. |
| ChatRoom.ChatView.SelectRoom | frontend/src/components/Chat/ChatRoom.jsx:34-48 | leave-room for the previous room (with a socket) comes before join-room for the new one. The list is cleared, the new room's history is requested with loading on, and the sidebar is closed. |
| ChatRoom.ChatView.MessagesLoaded | frontend/src/components/Chat/ChatRoom.jsx:21-31 | A fetched history replaces the list, a failure keeps it, and loading ends either way. |
| ChatRoom.ChatView.NewMessage | frontend/src/components/Chat/ChatRoom.jsx:54-56 | The message is appended at the end and earlier messages are unchanged. |
| ChatRoom.ChatView.UserTyping | frontend/src/components/Chat/ChatRoom.jsx:57-62 | The typist is listed afterwards and ids stay unique. |
| ChatRoom.ChatView.UserStopTyping | frontend/src/components/Chat/ChatRoom.jsx:63-65 | No entry with the id remains, and ids stay unique. |
| ChatRoom.ChatView.Send | frontend/src/components/Chat/ChatRoom.jsx:79-86 | Without an active room or socket nothing is emitted. Otherwise send-message `{roomId, message}` is emitted, then stop-typing for the same room. |
| ChatRoom.ChatView.FileUpload | frontend/src/components/Chat/ChatRoom.jsx:89-97 | The file is posted to the active room, and to nothing without one. |
| ChatRoom.ChatView.ToggleSidebar | frontend/src/components/Chat/ChatRoom.jsx:110 | The sidebar flips and nothing else changes. |
| ChatRoom.ComposedTextIsStored | frontend/src/components/Chat/ChatRoom.jsx:82 | Non-blank text typed within the input limit is stored by the socket handler exactly as the composer sent it, in that room, from that user. |
| ChatRoom.TrimmedTextIsStored | frontend/src/components/Chat/ChatRoom.jsx:82 | Trimmed, non-empty text within the limit, sent by a named user, is saved as sent, in that room, under that user. |
| RoomList.EntryId | frontend/src/components/Chat/RoomList.jsx:52 | A participant entry's id: a raw id string as it is, or the non-empty string `_id` of an expanded user. |
| RoomList.IsParticipant | frontend/src/components/Chat/RoomList.jsx:51-53 | The user is a participant when the room has a participant array and some entry's id is the user's. A missing list means not a participant. |
| RoomList.RawRoomParticipant | frontend/src/components/Chat/RoomList.jsx:51-53 | On a room with raw ids, as `createRoom` returns it, the client's participant check holds if and only if the stored room lists the user. |
| RoomList.ListsCons | frontend/src/components/Chat/RoomList.jsx:51-53 | `some` holds on a list if and only if it holds on its head or on the rest. |
| RoomList.RawEntries | frontend/src/components/Chat/RoomList.jsx:51-53 | Raw id entries list the user if and only if the id is among them. |
| RoomList.PopulatedEntries | frontend/src/components/Chat/RoomList.jsx:51-53 | Expanded entries list the user if and only if the id is among them and the account exists. |
| RoomList.PopulatedRoomParticipant | frontend/src/components/Chat/RoomList.jsx:51-53 | On a room with expanded participants, as `getRooms` returns it, the check holds if and only if the room lists the user and the account exists. Raw and expanded entries are recognised alike. |
| RoomList.Sidebar.constructor | frontend/src/components/Chat/RoomList.jsx:8-12 | No rooms, the form hidden and empty, not creating, and the sidebar invariant holds. |
| RoomList.Sidebar.Create | frontend/src/components/Chat/RoomList.jsx:31-103 | Submitting needs the form shown. A name shorter than 2 units (the browser's `required minLength={2}`) or a blank name changes nothing. Otherwise the form is posted, and it is postable: 2–50 units, not blank, with a description of at most 200. On success the room is put first, the form reset and hidden, and the room selected. On failure nothing more changes. `creating` is off at the end, and the invariant is kept. |
| RoomList.Sidebar.JoinAndSelect | frontend/src/components/Chat/RoomList.jsx:49-61 | A listed user is selected with no join. Otherwise the join endpoint is called first, and the room is selected only if it succeeds. The invariant is kept. |
| RoomList.Sidebar.ToggleCreate | frontend/src/components/Chat/RoomList.jsx:76 | The create form is shown or hidden, and nothing else changes. |
| RoomList.Sidebar.EditName | frontend/src/components/Chat/RoomList.jsx:90-94 | The typed name is replaced, within the input's `maxLength={50}`, and the description kept. Nothing else changes. |
| RoomList.Sidebar.EditDescription | frontend/src/components/Chat/RoomList.jsx:100-102 | The typed description is replaced, within the input's `maxLength={200}`, and the name kept. Nothing else changes. |
| RoomList.CreatedRoomNeedsNoJoin | frontend/src/components/Chat/RoomList.jsx:51-57 | A room the server has just created passes the client's participant check for its creator. |
| MessageInput.PreviewSize | frontend/src/components/Chat/MessageInput.jsx:68-72 | Below 1024 bytes the preview has a byte count, below 1 MiB a KB label, otherwise an MB label. There is no blank case. |
| MessageInput.SizeLabelsAgree | frontend/src/components/Chat/MessageInput.jsx:68-69 | The composer's and the list's size labels agree on every size but 0, which reads "0 B" against "". |
| MessageInput.Composer.constructor | frontend/src/components/Chat/MessageInput.jsx:7-10 | The composer starts with empty text, no file and no upload. |
| MessageInput.Composer.Edit | frontend/src/components/Chat/MessageInput.jsx:122-127 | Typing replaces the text, within `maxLength`, while the input is enabled. |
| MessageInput.Composer.Submit | frontend/src/components/Chat/MessageInput.jsx:13-33 | Disabled changes nothing. A selected file is uploaded and the text is never sent. Otherwise blank text is not sent, and other text is sent trimmed and the input cleared. An enabled button always sends or uploads exactly once. |
| MessageInput.Composer.UploadSettled | frontend/src/components/Chat/MessageInput.jsx:19-26 | The file is cleared only if the upload succeeded, and uploading is reset either way. |
| MessageInput.Composer.ClearFile | frontend/src/components/Chat/MessageInput.jsx:62-66 | The selection is cleared and nothing else changes. |
| MessageInput.Composer.KeyDown | frontend/src/components/Chat/MessageInput.jsx:35-40 | Enter without Shift submits only while no file is selected. Any other key changes nothing. |
| MessageInput.Composer.FileSelect | frontend/src/components/Chat/MessageInput.jsx:42-51 | With nothing picked, nothing changes. A file over 50·1024·1024 bytes raises "File too large. Maximum size is 50 MB." and keeps the selection. Any other file is selected. |
| MessageInput.SentTextFits | frontend/src/components/Chat/MessageInput.jsx:30-31 | Sent text is trimmed, non-empty and within 2000 units. |
| MessageInput.SendEnabled | frontend/src/components/Chat/MessageInput.jsx:132 | The Send button is enabled when the composer is not disabled, no upload runs, and there is non-blank text or a selected file. |
| MessageList.FormatSize | frontend/src/components/Chat/MessageList.jsx:6-11 | 0 is blank, below 1024 is bytes, below 1 MiB is KB and the rest is MB; each branch holds if and only if its range does. |
| MessageList.SizeLabel | frontend/src/components/Chat/MessageList.jsx:7-8 | The integer branches have a text: "" and "<n> B". |
| MessageList.BytesLabelReadsBack | frontend/src/components/Chat/MessageList.jsx:8 | A byte label ends in " B" and its count reads back. |
| MessageList.IsOwn | frontend/src/components/Chat/MessageList.jsx:66-68 | A message is the user's own when `senderId` is the user's id, or an object whose `_id` is. |
| MessageList.HasFile | frontend/src/components/Chat/MessageList.jsx:70-71 | File content is shown when the type is `file` or `image` and the `file` value is truthy. |
| MessageList.ShowsText | frontend/src/components/Chat/MessageList.jsx:93 | The text is shown when the `message` value is truthy. |
| MessageList.OwnRawSender | frontend/src/components/Chat/MessageList.jsx:66-68 | A socket or legacy event is the user's own if and only if its sender id is the user's. |
| MessageList.OwnExpandedSender | frontend/src/components/Chat/MessageList.jsx:66-68 | A REST or upload event is the user's own if and only if the sender still exists and is the user. |
| MessageList.FileShownFor | frontend/src/components/Chat/MessageList.jsx:70-71 | Socket and upload events show file content if and only if they are a file or image with an attachment. Legacy and REST events never do. |
| MessageList.TextShownFor | frontend/src/components/Chat/MessageList.jsx:93-95 | Every event shows text if and only if the stored text is non-empty. |
| MessageList.View | frontend/src/components/Chat/MessageList.jsx:55-106 | The placeholder is shown if and only if there are no messages. Otherwise there is one bubble per message, in order. |
| MessageList.ViewAppend | frontend/src/components/Chat/MessageList.jsx:65 | An appended message adds one bubble at the end and keeps every earlier bubble. |
| MessageList.FileUrl | frontend/src/components/Chat/MessageList.jsx:14 | The file link: the base URL with its first `/api` removed, then `/uploads/` and the stored file name. |
| MessageList.FileUrlPlainBase | frontend/src/components/Chat/MessageList.jsx:14 | A base without "/api" is used as is. |
| MessageList.FileUrlLeadingApi | frontend/src/components/Chat/MessageList.jsx:14 | A leading "/api" is removed. |
| MessageList.FileContent | frontend/src/components/Chat/MessageList.jsx:13-45 | The URL is the file URL. An image renders inline if and only if `messageType` is "image". A download link carries the original name and size label. |
| MessageList.UploadRendering | frontend/src/components/Chat/MessageList.jsx:16 | An upload renders inline if and only if the server classified it as an image. |
| AuthPage.FormCheck | frontend/src/components/AuthPage.jsx:28-52 | The checks run in a fixed order and stop at the first failure: name shorter than 3, name not `[a-zA-Z0-9_]+`, password shorter than 6, and (sign-up only) mismatch. Each error holds if and only if the earlier checks pass and it fails. |
| AuthPage.ClientName | frontend/src/components/AuthPage.jsx:32 | The name the form checks and submits: the input trimmed, then lower-cased. |
| AuthPage.SubmitEnabled | frontend/src/components/AuthPage.jsx:181 | The submit button is enabled when not submitting, the trimmed name has at least 3 UTF-16 units and the password at least 6. |
| AuthPage.EnabledPassesLengthChecks | frontend/src/components/AuthPage.jsx:181 | Pressing an enabled button never stops at a length check. |
| AuthPage.SubmittedNameIsStored | frontend/src/components/AuthPage.jsx:32 | The submitted name is trimmed and lower-case, and the server's normalisation keeps it. |
| AuthPage.SignInFormMeetsServer | frontend/src/components/AuthPage.jsx:32-59 | What passes the sign-in form passes the login validator. |
| AuthPage.InputLimitMeetsNameRules | frontend/src/components/AuthPage.jsx:123 | A name within the input's 30-unit limit that passes the form is a word of 3 to 30 characters, as the register validator demands. |
| AuthPage.SignUpFormMeetsServer | frontend/src/components/AuthPage.jsx:32-57 | What passes the sign-up form passes the register validator, for BMP passwords without variation selectors. |
| AuthPage.KelvinSignName | frontend/src/components/AuthPage.jsx:32-52 | A name spelled with U+212A KELVIN SIGN lower-cases to the ASCII "kate" and passes the sign-in form. |
| AuthPage.KelvinSignLowers | frontend/src/components/AuthPage.jsx:32 | "\u212Aate" is submitted as "kate". |
| AuthPage.KelvinSignTrimmed | frontend/src/components/AuthPage.jsx:32 | "\u212Aate" has no surrounding white space. |
| AuthPage.WordFormCheck | frontend/src/components/AuthPage.jsx:34-52 | For a lower-case word of at least 3 characters the name checks pass, and only the password checks remain. |
| AuthPage.WordRegisterValidation | backend/src/controllers/authController.js:19-29 | For a word, the register validator reports only the length findings. |
| AuthPage.ValidatedFields | backend/src/controllers/authController.js:19-29 | For a trimmed name the validator passes the fields through unchanged and reports exactly the failing checks, in order. |
| AuthPage.AstralPasswordPassesFormOnly | frontend/src/components/AuthPage.jsx:44 | Three astral characters pass the form's password check of 6 units but are refused by the register validator, with only the password finding. |
| AuthPage.AuthForm.constructor | frontend/src/components/AuthPage.jsx:7-13 | Sign-in mode with an empty form, no error, not submitting. |
| AuthPage.AuthForm.EditUsername | frontend/src/components/AuthPage.jsx:117-123 | Typing replaces the name, within `maxLength`. |
| AuthPage.AuthForm.EditPassword | frontend/src/components/AuthPage.jsx:135-138 | Typing replaces the password. |
| AuthPage.AuthForm.EditConfirm | frontend/src/components/AuthPage.jsx:160-163 | Typing replaces the confirmation. |
| AuthPage.AuthForm.TogglePassword | frontend/src/components/AuthPage.jsx:145 | The password visibility flips. |
| AuthPage.AuthForm.ResetForm | frontend/src/components/AuthPage.jsx:15-21 | The fields and error are cleared and the password hidden. The mode is kept. |
| AuthPage.AuthForm.SwitchMode | frontend/src/components/AuthPage.jsx:23-26 | The new mode with a cleared form. |
| AuthPage.AuthForm.Submit | frontend/src/components/AuthPage.jsx:28-60 | The first failed check shows its message and sends nothing. Otherwise the error is cleared, submitting is on, and the trimmed lower-case name and the password are sent for the current mode. |
| AuthPage.AuthForm.RequestFailed | frontend/src/components/AuthPage.jsx:61-65 | The server's error is shown, or "Something went wrong. Is the server running?" when there is none, and the button is re-enabled. |

## Left out

- Concurrency: each handler is one atomic step. There are no async interleavings between connections, no last-write-wins presence races and no ordering claims across concurrent sends.
- Socket.io's own semantics are not modelled. What `socket.rooms` holds when `disconnect` fires (including the socket's own id room) is an input sequence to `SocketEngine.Hub.Disconnect`. The fan-out order among recipients is taken to be connection order.
- The socket and REST handlers assume the room ids they receive are valid object ids. A malformed id, which Mongoose would refuse to cast, is not modelled separately: a lookup simply finds no room.
- JSON bodies other than strings for the HTTP fields `name`, `description`, `username`, `password`, `caption` and the REST send's `message` are not modelled (they are `Option<string>`). Only the legacy `message` field and the socket data are taken as raw JSON.
- `jwt.sign`, `jwt.verify`, bcrypt's `comparePassword` and the User model are function parameters. The User model is not part of this model.
- `getMe` is left out: it is a plain read of the current user.
- Mongo `populate` and `sort` are modelled by their results. Ties in `createdAt` are resolved by a stable sort, and the database's own tie order is not modelled.
- The `__v` version key and other Mongoose bookkeeping fields are not modelled, and timestamps are integers.
- Database failures are modelled by a `storeUp` flag on the message writes only. Room and user writes always succeed.
- An upload's absent or null `file` sub-document is represented as `None`, and so is the empty nested object Mongoose may produce.
- `toLocaleString` and `toLocaleTimeString` are a function parameter (`timeText`), because the text depends on the locale.
- MessageList.FormatSize: the KB and MB branches, which print a one-decimal float, are identified but have no text (`SizeLabel` gives None).
- MessageInput.PreviewSize: the composer's KB and MB labels are also not given a text, for the same floating-point reason.
- The multer disk storage, the generated filename (`Date.now`, `Math.random`) and the filesystem are not modelled. The generated name is a parameter.
- Strings.ToLower maps only A–Z and U+212A KELVIN SIGN (to `k`, the one non-ASCII character JavaScript lower-cases to an ASCII letter). Other non-ASCII mappings are not modelled. This affects AuthPage.ClientName, AuthPage.FormCheck, AuthController.NormalizeUsername and AuthController.Login. For example, U+0130 lower-cases in JavaScript to two characters ("i" and U+0307), so "\u0130a" has UTF-16 length 3 there and fails the name-character check. The model keeps the character, so FormCheck reports ShortUsername. Such names are never words, so registration refuses them in both, and Login finds no account registered under them in either.
- Participant entries that are null, numbers, or objects without a string `_id` are treated as not matching in `RoomList.EntryId`. JavaScript would throw or compare "[object Object]". The server never sends such entries.
- `ChatRoom.ChatView.UserTyping` takes the notice as a `Typist` value rather than raw JSON. The client assumes the server's `{ userId, username }` shape.
- Fetch races are not modelled: `ChatRoom.ChatView.MessagesLoaded` may apply a history that was requested for an earlier room.
- The successful end of `AuthPage.AuthForm.Submit` is not modelled. It unmounts the page when the auth context switches to the chat screen.
- The inputs' `maxLength` limits are preconditions, because the browser enforces them: the composer's text in `MessageInput.Composer.Edit`, the username in `AuthPage.AuthForm.EditUsername`, and the room name and description in `RoomList.Sidebar.EditName` and `RoomList.Sidebar.EditDescription`. The room name's `required minLength={2}` is modelled in `RoomList.Sidebar.Create` as a submit that changes nothing. So is the composer input being disabled while a file is selected or an upload runs.
- `alert` is recorded in the `alerts` sequence and is not shown.
- The FileReader image preview, the 10-second room polling, `fetchRooms`, scrolling and all JSX and CSS markup are not modelled.
- The client context and service modules (authentication storage, socket connection, HTTP client), the layout header and the unused legacy auth components are not part of this model.
- Server bootstrapping, the Mongo connection, environment defaults and route wiring are not part of this model. The routes are carried over as preconditions: the room and message API handlers run behind `protect` and their validators, and the legacy routes do not.
