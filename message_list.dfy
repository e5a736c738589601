/** The message list of the chat client: which bubbles are the user's own,
    when file content and text are shown, the file URL and the size label. */
module MessageList {
  import opened Wrappers
  import opened Strings
  import opened Wire
  import opened Models
  import opened Store
  import opened SocketEngine
  import opened MessageController

  // ---------------------------------------------------------------------------
  // Size labels

  /** The branch `formatSize` takes for a byte count. Only the integer
      branches have a text here; the other two print a one-decimal fraction. */
  datatype SizeText = Blank | Bytes(n: nat) | Kilobytes(bytes: nat) | Megabytes(bytes: nat)

  const KiB := 1024
  const MiB := 1024 * 1024

  /** The list's `formatSize`: a falsy size (0 or absent) shows nothing. */
  function FormatSize(bytes: nat): (r: SizeText)
    ensures r == Blank <==> bytes == 0
    ensures r == Bytes(bytes) <==> 0 < bytes < KiB
    ensures r.Kilobytes? <==> KiB <= bytes < MiB
    ensures r.Megabytes? <==> MiB <= bytes
    ensures r.Kilobytes? || r.Megabytes? ==> r.bytes == bytes
  {
    if bytes == 0 then Blank
    else if bytes < KiB then Bytes(bytes)
    else if bytes < MiB then Kilobytes(bytes)
    else Megabytes(bytes)
  }

  /** The text of the integer branches: nothing, or `<n> B`. */
  function SizeLabel(t: SizeText): (r: Option<string>)
    ensures r.Some? <==> t.Blank? || t.Bytes?
  {
    match t
    case Blank => Some("")
    case Bytes(n) => Some(NatToString(n) + " B")
    case _ => None
  }

  /** A byte label is the decimal count followed by ` B`, and the count
      reads back from it. */
  lemma BytesLabelReadsBack(n: nat)
    ensures var s := SizeLabel(Bytes(n)).value;
      |s| >= 3 && s[|s| - 2..] == " B" && ParseDigits(s[..|s| - 2]) == n
  {
    var s := SizeLabel(Bytes(n)).value;
    assert s[..|s| - 2] == NatToString(n);
    NatToStringRoundTrip(n);
  }

  // ---------------------------------------------------------------------------
  // Bubbles

  /** `msg.senderId === user._id || msg.senderId?._id === user._id`: the
      sender given as a raw id or as an expanded user. */
  predicate IsOwn(msg: Json, me: Id) {
    var s := Get(msg, "senderId");
    s == Some(JStr(me)) || (s.Some? && Get(s.value, "_id") == Some(JStr(me)))
  }

  /** `(messageType === 'file' || messageType === 'image') && msg.file`. */
  predicate HasFile(msg: Json) {
    var t := Get(msg, "messageType");
    (t == Some(JStr("file")) || t == Some(JStr("image"))) && Truthy(Get(msg, "file"))
  }

  /** `msg.message && <p>…</p>`: text is shown only when non-empty. */
  predicate ShowsText(msg: Json) {
    Truthy(Get(msg, "message"))
  }

  /** A socket or legacy event is the user's own exactly when its raw sender
      id is the user's. */
  lemma OwnRawSender(m: Message, me: Id)
    ensures IsOwn(SocketPayload(m), me) <==> m.senderId == me
    ensures IsOwn(LegacyPayload(m), me) <==> m.senderId == me
  {
  }

  /** A REST or upload event carries the expanded sender: it is the user's
      own exactly when that sender still exists and is the user, and never
      when the sender is gone. */
  lemma OwnExpandedSender(m: Message, users: seq<User>, me: Id)
    ensures var sender := PopulatedUser(users, m.senderId);
      && (IsOwn(RestPayload(m, sender), me) <==> UserById(users, m.senderId).Some? && m.senderId == me)
      && (IsOwn(UploadPayload(m, sender), me) <==> UserById(users, m.senderId).Some? && m.senderId == me)
  {
  }

  /** The socket and upload events show file content exactly for file and
      image messages with an attachment; the legacy and REST events, which
      carry no `messageType`, never do. */
  lemma FileShownFor(m: Message, sender: Json)
    ensures HasFile(SocketPayload(m)) <==> m.messageType != Text && m.file.Some?
    ensures HasFile(UploadPayload(m, sender)) <==> m.messageType != Text && m.file.Some?
    ensures !HasFile(LegacyPayload(m)) && !HasFile(RestPayload(m, sender))
  {
  }

  /** Every event shows its text exactly when the stored text is non-empty. */
  lemma TextShownFor(m: Message, sender: Json)
    ensures ShowsText(SocketPayload(m)) <==> m.message != ""
    ensures ShowsText(LegacyPayload(m)) <==> m.message != ""
    ensures ShowsText(RestPayload(m, sender)) <==> m.message != ""
  {
  }

  /** What one bubble shows: whether it is the user's own (and so without a
      sender name), file content, and text. */
  datatype Bubble = Bubble(own: bool, showsNick: bool, showsFile: bool, showsText: bool)

  function BubbleOf(msg: Json, me: Id): Bubble {
    Bubble(IsOwn(msg, me), !IsOwn(msg, me), HasFile(msg), ShowsText(msg))
  }

  datatype ListView = Placeholder | Bubbles(items: seq<Bubble>)

  /** The rendered list: the placeholder for no messages, else one bubble
      per message in order. */
  function View(messages: seq<Json>, me: Id): (r: ListView)
    ensures r == Placeholder <==> messages == []
    ensures r.Bubbles? ==> |r.items| == |messages| && forall i :: 0 <= i < |messages| ==> r.items[i] == BubbleOf(messages[i], me)
  {
    if messages == [] then Placeholder
    else Bubbles(seq(|messages|, i requires 0 <= i < |messages| => BubbleOf(messages[i], me)))
  }

  /** A message appended to the list adds one bubble at the end and leaves
      every earlier bubble as it was. */
  lemma ViewAppend(messages: seq<Json>, msg: Json, me: Id)
    ensures View(messages + [msg], me).Bubbles?
    ensures messages != [] ==> View(messages + [msg], me).items == View(messages, me).items + [BubbleOf(msg, me)]
  {
    if messages != [] {
      var a := View(messages + [msg], me).items;
      var b := View(messages, me).items + [BubbleOf(msg, me)];
      assert |a| == |b|;
      forall i | 0 <= i < |a| ensures a[i] == b[i] {
        if i < |messages| {
          assert (messages + [msg])[i] == messages[i];
        }
      }
    }
  }

  // ---------------------------------------------------------------------------
  // File content

  /** `${API_BASE.replace('/api', '')}/uploads/${file.filename}`. */
  function FileUrl(apiBase: string, filename: string): string {
    ReplaceFirst(apiBase, "/api", "") + "/uploads/" + filename
  }

  /** A base without `/api` is used as it is. */
  lemma FileUrlPlainBase(apiBase: string, filename: string)
    requires !Contains(apiBase, "/api")
    ensures FileUrl(apiBase, filename) == apiBase + "/uploads/" + filename
  {
  }

  /** A base that begins with `/api` loses exactly those four characters. */
  lemma FileUrlLeadingApi(rest: string, filename: string)
    ensures FileUrl("/api" + rest, filename) == rest + "/uploads/" + filename
  {
    var s := "/api" + rest;
    assert s[..4] == "/api" && s[4..] == rest;
  }

  /** An image renders inline, any other file as a download link with its
      size label. */
  datatype FileView = Inline(url: string, alt: string) | DownloadLink(url: string, name: string, size: SizeText)

  function FileContent(f: FileMeta, messageType: Option<Json>, apiBase: string): (r: FileView)
    ensures r.url == FileUrl(apiBase, f.filename)
    ensures r.Inline? <==> messageType == Some(JStr("image"))
    ensures r.DownloadLink? ==> r.name == f.originalName && r.size == FormatSize(f.size)
  {
    if messageType == Some(JStr("image")) then Inline(FileUrl(apiBase, f.filename), f.originalName)
    else DownloadLink(FileUrl(apiBase, f.filename), f.originalName, FormatSize(f.size))
  }

  /** An uploaded image is shown inline and any other upload as a link,
      following the classification the server made from the MIME type. */
  lemma UploadRendering(m: Message, sender: Json, apiBase: string)
    requires m.file.Some?
    ensures var v := FileContent(m.file.value, Get(UploadPayload(m, sender), "messageType"), apiBase);
      v.Inline? <==> m.messageType == Image
  {
  }
}
