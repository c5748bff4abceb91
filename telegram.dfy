/**
 * The Telegram side of the bridge: which incoming messages become events,
 * and which events. Only messages of the configured chat are handled. A
 * text starting with `/` is a command for the game's console and keeps the
 * id of its message, so that the console's answer can be posted as a reply.
 * Any other text becomes a chat line "name: text", and a photo the chat line
 * "name: [IMG]". Every other kind of message is ignored.
 */
module Telegram {
  import opened Wrappers
  import opened Events
  import opened Mpsc

  /** Rust's `i64`, the type of a Telegram chat id. */
  newtype i64 = x: int | -0x8000_0000_0000_0000 <= x < 0x8000_0000_0000_0000

  /** What a message carries, as far as the bridge distinguishes it. */
  datatype Media =
    | Text(text: string)
    | Photo
    | OtherMedia  // stickers, documents, service messages, ...

  datatype Message = Message(chatId: i64, id: i32, senderName: Option<string>, media: Media)

  const ImageText := "[IMG]"

  /** A message the handler tree routes to one of its two endpoints. */
  predicate Handled(chatId: i64, msg: Message) {
    msg.chatId == chatId && (msg.media.Text? || msg.media.Photo?)
  }

  /** A text that is sent to the console as a command. */
  predicate IsCommand(text: string) {
    |text| > 0 && text[0] == '/'
  }

  /** The chat line relayed to the game: `format!("{}: {}", name, text)`. */
  function ChatLine(name: string, text: string): string {
    name + ": " + text
  }

  /**
   * The event for an incoming message, if any. Both endpoints take the
   * sender's first name without checking that there is a sender, so a
   * handled message must have one.
   */
  function Classify(chatId: i64, msg: Message): (r: Option<Event>)
    requires Handled(chatId, msg) ==> msg.senderName.Some?
    ensures r.Some? <==> Handled(chatId, msg)
    ensures r.Some? ==> r.value.MessageFromTg? || r.value.CommandFromTg?
    ensures r.Some? && r.value.CommandFromTg? <==> r.Some? && msg.media.Text? && IsCommand(msg.media.text)
    ensures r.Some? && r.value.CommandFromTg? ==> r.value.id == msg.id && r.value.cmd == msg.media.text
  {
    if msg.chatId != chatId then None
    else
      match msg.media
      case Text(text) =>
        if IsCommand(text) then Some(CommandFromTg(msg.id, text))
        else Some(MessageFromTg(ChatLine(msg.senderName.value, text)))
      case Photo => Some(MessageFromTg(ChatLine(msg.senderName.value, ImageText)))
      case OtherMedia => None
  }

  /** The name and the text of a chat line are read back by their lengths. */
  lemma ChatLineParts(name: string, text: string)
    ensures var line := ChatLine(name, text);
            |line| == |name| + 2 + |text| &&
            line[..|name|] == name && line[|name|..|name| + 2] == ": " && line[|name| + 2..] == text
  {
    var line := ChatLine(name, text);
    assert line[..|name|] == name;
    assert line[|name|..|name| + 2] == ": ";
    assert line[|name| + 2..] == text;
  }

  /**
   * A plain text message reaches the game as the sender's name, `": "` and
   * the text, unchanged.
   */
  lemma ChatMessageRelayed(chatId: i64, msg: Message)
    requires Handled(chatId, msg) && msg.media.Text? && msg.senderName.Some? && !IsCommand(msg.media.text)
    ensures Classify(chatId, msg).value.MessageFromTg?
    ensures var line := Classify(chatId, msg).value.msg;
            var name := msg.senderName.value;
            line[..|name|] == name && line[|name|..|name| + 2] == ": " && line[|name| + 2..] == msg.media.text
  {
    ChatLineParts(msg.senderName.value, msg.media.text);
  }

  /**
   * A photo and the text "[IMG]" from the same sender give the same event:
   * the game cannot tell them apart.
   */
  lemma PhotoIndistinguishableFromText(chatId: i64, id1: i32, id2: i32, name: string)
    ensures Classify(chatId, Message(chatId, id1, Some(name), Photo))
         == Classify(chatId, Message(chatId, id2, Some(name), Text(ImageText)))
  {
    assert !IsCommand(ImageText);
  }

  /**
   * The chat line sent to the console starts with `/` exactly when the
   * sender's name does, whatever the text: the name, not the text, decides
   * whether a plain message looks like a console command.
   */
  lemma ChatLineLeadingSlash(name: string, text: string)
    requires |name| > 0
    ensures IsCommand(ChatLine(name, text)) <==> IsCommand(name)
  {
    assert ChatLine(name, text)[0] == name[0];
  }

  /**
   * The endpoint: classifies the message and sends its event into the
   * channel. Sending to a closed channel panics in the handler, so the bus
   * must still be receiving when a handled message arrives.
   */
  method OnMessage(chatId: i64, msg: Message, ch: Channel) returns (r: Option<SendStatus>)
    requires ch.Valid()
    requires Handled(chatId, msg) ==> msg.senderName.Some? && ch.receiverAlive
    modifies ch`buf
    ensures ch.Valid()
    ensures r.None? <==> !Handled(chatId, msg)
    ensures r != Some(Disconnected)
    ensures ch.buf == if r == Some(Sent) then old(ch.buf) + [Classify(chatId, msg).value] else old(ch.buf)
    ensures r == Some(Full) ==> |ch.buf| == Capacity
  {
    var event := Classify(chatId, msg);
    if event.Some? {
      var status := ch.Send(event.value);
      r := Some(status);
    } else {
      r := None;
    }
  }
}
