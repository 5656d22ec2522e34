/** Card content and what goes out to the chat (message.go): the stored
    `Message` with its eight kinds, the classifier `processMessage` that turns an
    incoming chat message into at most one stored `Message`, and
    `ToMessageConfig`, which turns a stored `Message` back into something to
    send. Coordinates are carried as they are and never computed with. */
module Messages {
  import opened Prelude

  /** `MessageType`, in declaration order (Go's `iota`). */
  datatype MessageType =
    | TextMessage | PhotoMessage | AudioMessage | DocumentMessage
    | StickerMessage | VideoMessage | VoiceMessage | LocationMessage

  /** The integer a `MessageType` is stored as. */
  function TypeCode(t: MessageType): nat
  {
    match t
    case TextMessage => 0
    case PhotoMessage => 1
    case AudioMessage => 2
    case DocumentMessage => 3
    case StickerMessage => 4
    case VideoMessage => 5
    case VoiceMessage => 6
    case LocationMessage => 7
  }

  /** Reading a stored type back; only the eight codes name a type. */
  function TypeFromCode(n: int): (r: Option<MessageType>)
    ensures r.Some? <==> 0 <= n < 8
    ensures r.Some? ==> TypeCode(r.value) == n
  {
    if n == 0 then Some(TextMessage)
    else if n == 1 then Some(PhotoMessage)
    else if n == 2 then Some(AudioMessage)
    else if n == 3 then Some(DocumentMessage)
    else if n == 4 then Some(StickerMessage)
    else if n == 5 then Some(VideoMessage)
    else if n == 6 then Some(VoiceMessage)
    else if n == 7 then Some(LocationMessage)
    else None
  }

  lemma TypeCodeRoundTrip(t: MessageType)
    ensures TypeFromCode(TypeCode(t)) == Some(t)
  {
  }

  /** One stored content block of a card face. */
  datatype Message = Message(kind: MessageType, text: string, fileId: string, latitude: real, longitude: real)

  datatype Location = Location(latitude: real, longitude: real)

  /** The parts of an incoming chat message the bot looks at. Each media field
      is present or absent; `photo` is the list of sizes' file ids. */
  datatype Incoming = Incoming(
    from: int,
    text: string,
    caption: string,
    audio: Option<string>,
    document: Option<string>,
    video: Option<string>,
    voice: Option<string>,
    sticker: Option<string>,
    location: Option<Location>,
    photo: Option<seq<string>>)

  /** Whether `msg` carries content of kind `t`. */
  predicate Carries(msg: Incoming, t: MessageType)
  {
    match t
    case AudioMessage => msg.audio.Some?
    case DocumentMessage => msg.document.Some?
    case VideoMessage => msg.video.Some?
    case VoiceMessage => msg.voice.Some?
    case StickerMessage => msg.sticker.Some?
    case LocationMessage => msg.location.Some?
    case PhotoMessage => msg.photo.Some?
    case TextMessage => msg.text != ""
  }

  /** Position of a kind in the order `processMessage` tries them. */
  function Precedence(t: MessageType): nat
  {
    match t
    case AudioMessage => 0
    case DocumentMessage => 1
    case VideoMessage => 2
    case VoiceMessage => 3
    case StickerMessage => 4
    case LocationMessage => 5
    case PhotoMessage => 6
    case TextMessage => 7
  }

  /** `processMessage`: append to `messages` one `Message` for the first kind of
      content `msg` carries, trying audio, document, video, voice, sticker,
      location, photo and text in that order; leave `messages` as it is when
      `msg` carries none. Stickers and locations keep no text, text messages
      keep their text and the other kinds the caption; a photo keeps the file
      of its last size, and indexing an empty size list panics. */
  function ProcessMessage(msg: Incoming, messages: seq<Message>): (r: Result<seq<Message>>)
    ensures r.Ok? ==> |messages| <= |r.value| <= |messages| + 1 && r.value[..|messages|] == messages
    ensures r.Ok? && |r.value| == |messages| ==> forall t :: !Carries(msg, t)
    ensures (forall t :: !Carries(msg, t)) ==> r == Ok(messages)
    ensures r.Ok? && |r.value| > |messages| ==>
      var m := r.value[|messages|];
      && Carries(msg, m.kind)
      && (forall t :: Precedence(t) < Precedence(m.kind) ==> !Carries(msg, t))
      && (m.kind == StickerMessage || m.kind == LocationMessage ==> m.text == "")
      && (m.kind == TextMessage ==> m.text == msg.text)
      && (m.kind != StickerMessage && m.kind != LocationMessage && m.kind != TextMessage ==> m.text == msg.caption)
      && (m.kind == PhotoMessage ==> msg.photo.value != [] && m.fileId == msg.photo.value[|msg.photo.value| - 1])
    ensures r.Err? <==> msg.photo == Some([]) && forall t :: Precedence(t) < Precedence(PhotoMessage) ==> !Carries(msg, t)
    ensures r.Err? ==> r.error == Panic(IndexOutOfRange)
  {
    if msg.audio.Some? then
      assert Carries(msg, AudioMessage);
      Ok(messages + [Message(AudioMessage, msg.caption, msg.audio.value, 0.0, 0.0)])
    else if msg.document.Some? then
      assert Carries(msg, DocumentMessage);
      Ok(messages + [Message(DocumentMessage, msg.caption, msg.document.value, 0.0, 0.0)])
    else if msg.video.Some? then
      assert Carries(msg, VideoMessage);
      Ok(messages + [Message(VideoMessage, msg.caption, msg.video.value, 0.0, 0.0)])
    else if msg.voice.Some? then
      assert Carries(msg, VoiceMessage);
      Ok(messages + [Message(VoiceMessage, msg.caption, msg.voice.value, 0.0, 0.0)])
    else if msg.sticker.Some? then
      assert Carries(msg, StickerMessage);
      Ok(messages + [Message(StickerMessage, "", msg.sticker.value, 0.0, 0.0)])
    else if msg.location.Some? then
      assert Carries(msg, LocationMessage);
      Ok(messages + [Message(LocationMessage, "", "", msg.location.value.latitude, msg.location.value.longitude)])
    else if msg.photo.Some? then
      var sizes := msg.photo.value;
      assert Carries(msg, PhotoMessage);
      if |sizes| == 0 then Err(Panic(IndexOutOfRange))
      else Ok(messages + [Message(PhotoMessage, msg.caption, sizes[|sizes| - 1], 0.0, 0.0)])
    else if msg.text != "" then
      assert Carries(msg, TextMessage);
      Ok(messages + [Message(TextMessage, msg.text, "", 0.0, 0.0)])
    else
      Ok(messages)
  }

  // ---------------------------------------------------------------------------
  // What is sent to the chat

  /** A keyboard button: a plain label, a label built around a formatted time
      of day, or a button that asks for the user's location. */
  datatype Button =
    | Label(text: string)
    | ClockLabel(prefix: string, clock: Clock, suffix: string)
    | LocationRequest(text: string)

  /** The reply markup attached to a send. */
  datatype Markup = NoMarkup | Keyboard(rows: seq<seq<Button>>, oneTime: bool)

  /** The Telegram send configuration `ToMessageConfig` builds, one per kind. */
  datatype Share =
    | TextShare(text: string)
    | PhotoShare(fileId: string, caption: string)
    | AudioShare(fileId: string)
    | DocumentShare(fileId: string)
    | StickerShare(fileId: string)
    | VideoShare(fileId: string, caption: string)
    | VoiceShare(fileId: string)
    | LocationShare(latitude: real, longitude: real)

  /** What one send carries: a text (possibly around a formatted time of day),
      stored card content, or the fixed help sequence. */
  datatype Body =
    | Say(text: string)
    | SayClock(prefix: string, clock: Clock, suffix: string)
    | Media(share: Share)
    | HelpSequence

  /** One send to the user's chat. */
  datatype Output = Output(body: Body, markup: Markup)

  /** The kind of content a send configuration delivers. */
  function ShareKind(s: Share): MessageType
  {
    match s
    case TextShare(_) => TextMessage
    case PhotoShare(_, _) => PhotoMessage
    case AudioShare(_) => AudioMessage
    case DocumentShare(_) => DocumentMessage
    case StickerShare(_) => StickerMessage
    case VideoShare(_, _) => VideoMessage
    case VoiceShare(_) => VoiceMessage
    case LocationShare(_, _) => LocationMessage
  }

  /** The text a send configuration shows (a message's text or a caption). */
  function ShareText(s: Share): string
  {
    match s
    case TextShare(t) => t
    case PhotoShare(_, c) => c
    case VideoShare(_, c) => c
    case _ => ""
  }

  /** The file a send configuration refers to, if any. */
  function ShareFile(s: Share): string
  {
    match s
    case PhotoShare(f, _) => f
    case AudioShare(f) => f
    case DocumentShare(f) => f
    case StickerShare(f) => f
    case VideoShare(f, _) => f
    case VoiceShare(f) => f
    case _ => ""
  }

  /** `ToMessageConfig`: send a stored message as its own kind with the given
      markup. Only text, photo and video sends show the stored text; every kind
      but text and location refers to the stored file. */
  function ToMessageConfig(m: Message, markup: Markup): (r: Output)
    ensures r.markup == markup && r.body.Media?
    ensures ShareKind(r.body.share) == m.kind
    ensures ShareText(r.body.share) ==
      (if m.kind == TextMessage || m.kind == PhotoMessage || m.kind == VideoMessage then m.text else "")
    ensures ShareFile(r.body.share) ==
      (if m.kind == TextMessage || m.kind == LocationMessage then "" else m.fileId)
    ensures m.kind == LocationMessage ==> r.body.share == LocationShare(m.latitude, m.longitude)
  {
    var share := match m.kind
      case TextMessage => TextShare(m.text)
      case PhotoMessage => PhotoShare(m.fileId, m.text)
      case AudioMessage => AudioShare(m.fileId)
      case DocumentMessage => DocumentShare(m.fileId)
      case StickerMessage => StickerShare(m.fileId)
      case VideoMessage => VideoShare(m.fileId, m.text)
      case VoiceMessage => VoiceShare(m.fileId)
      case LocationMessage => LocationShare(m.latitude, m.longitude);
    Output(Media(share), markup)
  }
}
