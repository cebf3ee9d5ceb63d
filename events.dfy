/** The parts of a Lark event callback that both webhook handlers read
    (api/app.py and api/lark_callback.py), and the HTTP answers they give. */
module Events {
  import opened Wrappers
  import Text

  /** One entry of `message.mentions`: its `id.open_id`, if any. */
  datatype Mention = Mention(openId: Option<string>)

  /** `event.message`. `text` is the `text` field of the JSON in
      `content` (`""` when that field is absent), or `None` when `content`
      does not decode to an object with a string `text`. `createTimeMs` is
      `None` when `create_time` is absent or empty. */
  datatype Message = Message(
    messageId: Option<string>,
    chatId: string,
    chatType: Option<string>,
    messageType: Option<string>,
    createTimeMs: Option<int>,
    text: Option<string>,
    mentions: seq<Mention>)

  /** The request body: `challenge`, `header.token`,
      `event.sender.sender_type` and `event.message` (`None` when absent
      or empty). */
  datatype Event = Event(
    challenge: Option<string>,
    token: Option<string>,
    senderType: Option<string>,
    message: Option<Message>)

  /** `{"challenge": c}`, or `{"msg": m}` with an HTTP status. */
  datatype Response = Challenge(value: string) | Reply(status: int, msg: string)

  /** The event gets past the challenge, token, sender, empty-message
      and duplicate checks that both handlers make in this order, and so
      reaches the call that marks its message id as processed. */
  predicate Admitted(token: Option<string>, ev: Event, processed: set<string>) {
    && ev.challenge.None? && ev.token == token
    && ev.senderType != Some("app") && ev.message.Some?
    && ev.message.value.messageId.Some? && ev.message.value.messageId.value != []
    && ev.message.value.messageId.value !in processed
  }

  /** Text that the handlers treat as a command. */
  predicate IsCommand(text: string) {
    text != [] && text[0] == '/'
  }

  /** `parts = text.split()` followed by `parts[0], parts[1:]`: the
      command is the first whitespace-separated token, and the arguments
      are the tokens of the rest. */
  function SplitCommand(text: string): (r: (string, seq<string>))
    requires IsCommand(text)
    ensures r.0 == text[..Text.TokenLen(text)]
    ensures Text.IsWord(r.0) && r.0[0] == '/'
    ensures r.1 == Text.Words(text[Text.TokenLen(text)..])
  {
    Text.FirstWord(text);
    var ws := Text.Words(text);
    (ws[0], ws[1..])
  }
}
