/** The `/api/lark_callback` route of api/app.py: a chain of gates an
    event passes before it is answered as a command or a conversation
    turn, and the store and chat effects of each outcome. */
module Webhook {
  import opened Wrappers
  import opened Services
  import opened Events
  import Text
  import ReplyText
  import Commands

  /** Where an event leaves the gate chain of app.py:94-165. */
  datatype Verdict =
    | EchoChallenge(challenge: string)
    | BadToken
    | NotAMessage
    | Duplicate
    | Stale
    | BadContent
    | RunCommand(chat: string, command: string, args: seq<string>)
    | EmptyText
    | NoBotId
    | NotMentioned
    | Converse(chat: string, text: string)

  /** Older than `MAX_MESSAGE_AGE_SECONDS`, comparing in milliseconds. */
  predicate IsStale(cfg: Config, createTimeMs: int, nowMs: int) {
    nowMs - createTimeMs > cfg.maxMessageAgeSeconds * 1000
  }

  /** Some mention carries the bot's open id. */
  predicate Mentioned(mentions: seq<Mention>, botOpenId: string) {
    exists i | 0 <= i < |mentions| :: mentions[i].openId == Some(botOpenId)
  }

  /** The text the later gates look at: the stripped `text` with mentions
      resolved by `resolve` (standing for `resolve_mentions`). */
  function Resolved(m: Message, resolve: (string, seq<Mention>) -> string): string
    requires m.text.Some?
  {
    resolve(Text.Strip(m.text.value), m.mentions)
  }

  /** The gates before the message id is marked (app.py:94-115): the
      verdict of the first that stops the event, or `None`. */
  function Admission(cfg: Config, ev: Event, processed: set<string>): (v: Option<Verdict>)
    ensures v.None? <==> Admitted(cfg.verificationToken, ev, processed)
    ensures v.Some? ==> v.value.EchoChallenge? || v.value.BadToken? || v.value.NotAMessage? || v.value.Duplicate?
  {
    if ev.challenge.Some? then Some(EchoChallenge(ev.challenge.value))
    else if ev.token != cfg.verificationToken then Some(BadToken)
    else if ev.senderType == Some("app") || ev.message.None? then Some(NotAMessage)
    else
      var id := ev.message.value.messageId;
      if id.None? || id.value == [] || id.value in processed then Some(Duplicate)
      else None
  }

  /** The gates after the message id is marked (app.py:118-165).
      `botOpenId` is the bot's open id as cached or fetched, `None` when
      neither produced one. */
  function Screen(cfg: Config, m: Message, nowMs: int, botOpenId: Option<string>,
                  resolve: (string, seq<Mention>) -> string): (v: Verdict)
    ensures !(v.EchoChallenge? || v.BadToken? || v.NotAMessage? || v.Duplicate?)
    ensures v.RunCommand? ==> v.chat == m.chatId && v.command != [] && v.command[0] == '/'
    ensures v.Converse? ==> v.chat == m.chatId && v.text != [] && v.text[0] != '/'
  {
    if m.createTimeMs.Some? && IsStale(cfg, m.createTimeMs.value, nowMs) then Stale
    else if m.text.None? then BadContent
    else Route(m, Resolved(m, resolve), botOpenId)
  }

  /** The gates on the resolved text (app.py:132-165): a command, an
      empty text, and in a group chat the mention of the bot. */
  function Route(m: Message, text: string, botOpenId: Option<string>): (v: Verdict)
    ensures v.RunCommand? || v.EmptyText? || v.NoBotId? || v.NotMentioned? || v.Converse?
    ensures v.RunCommand? ==> v.chat == m.chatId && v.command != [] && v.command[0] == '/'
    ensures v.Converse? ==> v.chat == m.chatId && v.text == text && text != [] && text[0] != '/'
  {
    if IsCommand(text) then
      var parts := SplitCommand(text);
      RunCommand(m.chatId, parts.0, parts.1)
    else if text == [] then EmptyText
    else if m.chatType == Some("group") && botOpenId.None? then NoBotId
    else if m.chatType == Some("group") && !Mentioned(m.mentions, botOpenId.value) then NotMentioned
    else Converse(m.chatId, text)
  }

  /** The whole gate chain. */
  function Gate(cfg: Config, ev: Event, processed: set<string>, nowMs: int,
                botOpenId: Option<string>, resolve: (string, seq<Mention>) -> string): (v: Verdict)
    ensures ev.challenge.Some? ==> v == EchoChallenge(ev.challenge.value)
    ensures ev.challenge.None? && ev.token != cfg.verificationToken ==> v == BadToken
    ensures v.RunCommand? || v.Converse? ==> ev.message.Some? && v.chat == ev.message.value.chatId
    ensures v.Converse? ==> v.text != [] && v.text[0] != '/'
  {
    match Admission(cfg, ev, processed)
    case Some(v) => v
    case None => Screen(cfg, ev.message.value, nowMs, botOpenId, resolve)
  }

  /** The message id is marked exactly when the event gets past the
      duplicate gate, so a message that a later gate drops (stale,
      command, empty, not mentioned) is still marked. */
  lemma MarkedIffPastDuplicateGate(cfg: Config, ev: Event, processed: set<string>, nowMs: int,
                                   botOpenId: Option<string>, resolve: (string, seq<Mention>) -> string)
    ensures var v := Gate(cfg, ev, processed, nowMs, botOpenId, resolve);
      Admitted(cfg.verificationToken, ev, processed) <==> !(v.EchoChallenge? || v.BadToken? || v.NotAMessage? || v.Duplicate?)
  {
  }

  /** Commands are recognised before the mention gate: in a group chat a
      command runs whether or not the bot is mentioned. */
  lemma CommandIgnoresMentions(cfg: Config, m: Message, nowMs: int,
                               botOpenId: Option<string>, resolve: (string, seq<Mention>) -> string)
    requires m.createTimeMs.None? || !IsStale(cfg, m.createTimeMs.value, nowMs)
    requires m.text.Some? && IsCommand(Resolved(m, resolve))
    ensures var parts := SplitCommand(Resolved(m, resolve));
      Screen(cfg, m, nowMs, botOpenId, resolve) == RunCommand(m.chatId, parts.0, parts.1)
  {
    var t := Resolved(m, resolve);
    assert Screen(cfg, m, nowMs, botOpenId, resolve) == Route(m, t, botOpenId);
  }

  /** A conversation turn happens exactly when every later gate lets the
      message through; in a group chat that includes a mention of the
      bot. */
  lemma ConverseIff(cfg: Config, m: Message, nowMs: int,
                    botOpenId: Option<string>, resolve: (string, seq<Mention>) -> string)
    ensures Screen(cfg, m, nowMs, botOpenId, resolve).Converse?
        <==> && (m.createTimeMs.None? || !IsStale(cfg, m.createTimeMs.value, nowMs))
             && m.text.Some?
             && var t := Resolved(m, resolve);
                && t != [] && t[0] != '/'
                && (m.chatType == Some("group") ==> botOpenId.Some? && Mentioned(m.mentions, botOpenId.value))
    ensures var v := Screen(cfg, m, nowMs, botOpenId, resolve);
      v.Converse? ==> v.text == Resolved(m, resolve)
  {
    if !(m.createTimeMs.Some? && IsStale(cfg, m.createTimeMs.value, nowMs)) && m.text.Some? {
      assert Screen(cfg, m, nowMs, botOpenId, resolve) == Route(m, Resolved(m, resolve), botOpenId);
    }
  }

  datatype AiOutcome = Answer(text: string) | Raised
  datatype Exchange = Answered(reply: string) | Failed

  /** `settings.get(key) or default`: an absent or empty value falls
      back. */
  function OrDefault(m: map<string, string>, key: string, default: string): string {
    if key in m && m[key] != [] then m[key] else default
  }

  /** The model and the messages of the completion request
      (app.py:174-180); `None` when `PROMPTS['default']` raises
      `KeyError`, which it does whatever the role, because the default is
      evaluated before the lookup. */
  function Request(cfg: Config, settings: map<string, string>, history: seq<Turn>, text: string): (r: Option<(string, seq<Turn>)>)
    ensures r.Some? <==> "default" in cfg.prompts
    ensures r.Some? ==> |r.value.1| == |history| + 2 && r.value.1[0].role == System
    ensures r.Some? ==> r.value.1[1..|history| + 1] == history && r.value.1[|history| + 1] == Turn(User, text)
  {
    if "default" !in cfg.prompts then None
    else
      var role := OrDefault(settings, "role", cfg.defaultRole);
      var prompt := if role in cfg.prompts then cfg.prompts[role] else cfg.prompts["default"];
      Some((OrDefault(settings, "model", cfg.openAiModel), [Turn(System, prompt)] + history + [Turn(User, text)]))
  }

  /** The chat's own model and role are used when set and non-empty;
      otherwise the configured defaults, and an unknown role gets the
      default prompt. */
  lemma RequestChoices(cfg: Config, settings: map<string, string>, history: seq<Turn>, text: string)
    requires "default" in cfg.prompts
    ensures var r := Request(cfg, settings, history, text).value;
      var role := if "role" in settings && settings["role"] != [] then settings["role"] else cfg.defaultRole;
      && r.0 == (if "model" in settings && settings["model"] != [] then settings["model"] else cfg.openAiModel)
      && r.1[0].content == (if role in cfg.prompts then cfg.prompts[role] else cfg.prompts["default"])
  {
  }

  /** One exchange with the model: the request, the call (`ai`), and the
      cleaning of a returned answer. */
  function Ask(cfg: Config, settings: map<string, string>, history: seq<Turn>, text: string,
                    ai: (string, seq<Turn>) -> AiOutcome): (x: Exchange)
    ensures x.Answered? ==> x.reply != [] && !Text.IsSpace(x.reply[0]) && !Text.IsSpace(x.reply[|x.reply| - 1])
    ensures x.Answered? <==> "default" in cfg.prompts
                             && var q := Request(cfg, settings, history, text).value; ai(q.0, q.1).Answer?
  {
    match Request(cfg, settings, history, text)
    case None => Failed
    case Some(q) =>
      match ai(q.0, q.1)
      case Raised => Failed
      case Answer(a) => Answered(ReplyText.Sanitize(a))
  }

  /** The exchange as app.py:183 is written: `get_ai_response` is a plain
      function, so the string it returns is handed to
      `run_async_from_sync`, whose `asyncio.run_coroutine_threadsafe`
      refuses anything but a coroutine with a `TypeError`. The model is
      still called, but its answer never gets past that line. */
  function AskAsWritten(cfg: Config, settings: map<string, string>, history: seq<Turn>, text: string,
                        ai: (string, seq<Turn>) -> AiOutcome): (x: Exchange)
    ensures x.Failed?
  {
    match Request(cfg, settings, history, text)
    case None => Failed
    case Some(q) =>
      match ai(q.0, q.1)
      case Raised => Failed
      case Answer(_) => Failed
  }

  /** Wherever a prompt exists and the model answers, the exchange as
      written fails although the intended one is answered. */
  lemma AnswerLostAsWritten(cfg: Config, settings: map<string, string>, history: seq<Turn>, text: string,
                             ai: (string, seq<Turn>) -> AiOutcome)
    requires "default" in cfg.prompts
    requires var q := Request(cfg, settings, history, text).value; ai(q.0, q.1).Answer?
    ensures Ask(cfg, settings, history, text, ai).Answered?
    ensures AskAsWritten(cfg, settings, history, text, ai).Failed?
  {
  }

  /** As written, every conversation turn keeps the store as it was,
      reports the processing error to the chat and answers 500. */
  lemma TurnAsWrittenFails(cfg: Config, st: ChatState, chat: string, text: string, target: Option<string>,
                           ai: (string, seq<Turn>) -> AiOutcome)
    ensures var e := Conclusion(st, chat, text, target, AskAsWritten(cfg, SettingsOf(st, chat), ContextOf(st, chat), text, ai));
      && e.state == st
      && e.sent == [DeliveryFor(chat, target, Notice(ProcessingError))]
      && e.response == Reply(500, "Error occurred")
  {
  }

  /** Patch the placeholder when there is one, else send a new message. */
  function DeliveryFor(chat: string, placeholder: Option<string>, c: Content): Delivery {
    if placeholder.Some? then Patch(placeholder.value, c) else Send(chat, c)
  }

  /** Everything one callback does, as a value: the new store, the
      messages sent in order, and the HTTP answer. */
  datatype Effect = Effect(state: ChatState, sent: seq<Delivery>, response: Response)

  /** A conversation turn (app.py:167-230): the placeholder, the
      exchange, the answer or the error notice, and the history. */
  function Turnaround(cfg: Config, st: ChatState, chat: string, text: string, placeholderId: Option<string>,
                      ai: (string, seq<Turn>) -> AiOutcome): (e: Effect)
    ensures e.state.settings == st.settings && e.state.processed == st.processed
    ensures forall c | c != chat :: ContextOf(e.state, c) == ContextOf(st, c)
    ensures e.sent != [] && |e.sent| == (if cfg.sendAndReplace then 2 else 1)
  {
    var pre := if cfg.sendAndReplace then [Send(chat, Plain(cfg.placeholderMessage))] else [];
    var target := if cfg.sendAndReplace then placeholderId else None;
    var c := Conclusion(st, chat, text, target, Ask(cfg, SettingsOf(st, chat), ContextOf(st, chat), text, ai));
    Effect(c.state, pre + c.sent, c.response)
  }

  /** The end of a turn (app.py:192-230): the answer or the error notice
      goes out, and an answer is saved with the user's text before it. */
  function Conclusion(st: ChatState, chat: string, text: string, target: Option<string>, x: Exchange): (e: Effect)
    ensures e.state.settings == st.settings && e.state.processed == st.processed
    ensures forall c | c != chat :: ContextOf(e.state, c) == ContextOf(st, c)
    ensures |e.sent| == 1 && e.sent[0] == DeliveryFor(chat, target, if x.Answered? then Plain(x.reply) else Notice(ProcessingError))
  {
    match x
    case Failed => Effect(st, [DeliveryFor(chat, target, Notice(ProcessingError))], Reply(500, "Error occurred"))
    case Answered(reply) =>
      var history := ContextOf(st, chat) + [Turn(User, text), Turn(Assistant, reply)];
      Effect(st.(contexts := st.contexts[chat := history]),
             [DeliveryFor(chat, target, Plain(reply))],
             Reply(200, "Successfully processed"))
  }

  /** An answered turn appends the user's text and then the cleaned
      answer to the chat's history, and its last message carries that
      answer; a failed one keeps the history and reports the failure. */
  lemma TurnaroundHistory(cfg: Config, st: ChatState, chat: string, text: string, placeholderId: Option<string>,
                          ai: (string, seq<Turn>) -> AiOutcome)
    ensures var x := Ask(cfg, SettingsOf(st, chat), ContextOf(st, chat), text, ai);
      var e := Turnaround(cfg, st, chat, text, placeholderId, ai);
      && (x.Answered? ==>
            && ContextOf(e.state, chat) == ContextOf(st, chat) + [Turn(User, text), Turn(Assistant, x.reply)]
            && e.sent[|e.sent| - 1].content == Plain(x.reply)
            && e.response == Reply(200, "Successfully processed"))
      && (x.Failed? ==>
            && e.state == st
            && e.sent[|e.sent| - 1].content == Notice(ProcessingError)
            && e.response == Reply(500, "Error occurred"))
  {
  }

  /** With send-and-replace on, the placeholder goes first and the final
      message patches it when the platform returned its id. */
  lemma TurnaroundPlaceholder(cfg: Config, st: ChatState, chat: string, text: string, placeholderId: Option<string>,
                              ai: (string, seq<Turn>) -> AiOutcome)
    requires cfg.sendAndReplace
    ensures var e := Turnaround(cfg, st, chat, text, placeholderId, ai);
      && e.sent[0] == Send(chat, Plain(cfg.placeholderMessage))
      && (placeholderId.Some? ==> e.sent[1].Patch? && e.sent[1].messageId == placeholderId.value)
      && (placeholderId.None? ==> e.sent[1].Send? && e.sent[1].chatId == chat)
  {
  }

  /** What a verdict does to a store whose message id is already marked. */
  function Outcome(cfg: Config, st: ChatState, v: Verdict, placeholderId: Option<string>,
                   ai: (string, seq<Turn>) -> AiOutcome): (e: Effect)
    ensures e.state.processed == st.processed
    ensures !v.RunCommand? && !v.Converse? ==> e.state == st && e.sent == []
    ensures v.RunCommand? ==> |e.sent| == 1 && e.sent[0].Send? && e.sent[0].chatId == v.chat
    ensures v.Converse? ==> e.state.settings == st.settings && e.sent != []
                            && forall c | c != v.chat :: ContextOf(e.state, c) == ContextOf(st, c)
  {
    match v
    case EchoChallenge(c) => Effect(st, [], Challenge(c))
    case BadToken => Effect(st, [], Reply(401, "Invalid token"))
    case NotAMessage => Effect(st, [], Reply(200, "Ignoring message from bot or empty message"))
    case Duplicate => Effect(st, [], Reply(200, "Duplicate message ignored"))
    case Stale => Effect(st, [], Reply(200, "Stale message ignored"))
    case BadContent => Effect(st, [], Reply(500, "Internal Server Error"))
    case RunCommand(chat, command, args) => CommandEffect(cfg, st, chat, command, args)
    case EmptyText => Effect(st, [], Reply(200, "Empty message content"))
    case NoBotId => Effect(st, [], Reply(200, "Could not verify bot mention."))
    case NotMentioned => Effect(st, [], Reply(200, "Bot not mentioned"))
    case Converse(chat, text) => Turnaround(cfg, st, chat, text, placeholderId, ai)
  }

  /** A command (app.py:132-136): the handler's step and its one reply. */
  function CommandEffect(cfg: Config, st: ChatState, chat: string, command: string, args: seq<string>): (e: Effect)
    ensures |e.sent| == 1 && e.sent[0].Send? && e.sent[0].chatId == chat
    ensures e.state.processed == st.processed
  {
    var step := Commands.Command(cfg, st, chat, command, args);
    Effect(step.state, [Send(chat, Notice(step.reply))], Reply(200, "Command handled"))
  }

  /** A command verdict has exactly the command's effect. */
  lemma CommandOutcome(cfg: Config, st: ChatState, chat: string, command: string, args: seq<string>,
                       placeholderId: Option<string>, ai: (string, seq<Turn>) -> AiOutcome)
    ensures Outcome(cfg, st, RunCommand(chat, command, args), placeholderId, ai) == CommandEffect(cfg, st, chat, command, args)
  {
  }

  /** The store with the event's message id marked, when it gets that far. */
  function Mark(cfg: Config, st: ChatState, ev: Event): (r: ChatState)
    ensures r.settings == st.settings && r.contexts == st.contexts
    ensures Admitted(cfg.verificationToken, ev, st.processed) ==> r.processed == st.processed + {ev.message.value.messageId.value}
    ensures !Admitted(cfg.verificationToken, ev, st.processed) ==> r.processed == st.processed
  {
    if Admitted(cfg.verificationToken, ev, st.processed)
    then st.(processed := st.processed + {ev.message.value.messageId.value}) else st
  }

  /** One callback, start to end. */
  function Handle(cfg: Config, st: ChatState, ev: Event, nowMs: int, botOpenId: Option<string>,
                  resolve: (string, seq<Mention>) -> string, placeholderId: Option<string>,
                  ai: (string, seq<Turn>) -> AiOutcome): (e: Effect)
    ensures Admitted(cfg.verificationToken, ev, st.processed) ==> e.state.processed == st.processed + {ev.message.value.messageId.value}
    ensures !Admitted(cfg.verificationToken, ev, st.processed) ==> e.state == st && e.sent == []
  {
    Outcome(cfg, Mark(cfg, st, ev), Gate(cfg, ev, st.processed, nowMs, botOpenId, resolve), placeholderId, ai)
  }

  /** An event that does not get past the duplicate gate changes nothing
      and sends nothing. */
  lemma RejectedEventsChangeNothing(cfg: Config, st: ChatState, ev: Event, nowMs: int, botOpenId: Option<string>,
                                    resolve: (string, seq<Mention>) -> string, placeholderId: Option<string>,
                                    ai: (string, seq<Turn>) -> AiOutcome)
    requires !Admitted(cfg.verificationToken, ev, st.processed)
    ensures var e := Handle(cfg, st, ev, nowMs, botOpenId, resolve, placeholderId, ai);
      && e.state == st && e.sent == []
      && e.response == (if ev.challenge.Some? then Challenge(ev.challenge.value)
                        else if ev.token != cfg.verificationToken then Reply(401, "Invalid token")
                        else if ev.senderType == Some("app") || ev.message.None? then Reply(200, "Ignoring message from bot or empty message")
                        else Reply(200, "Duplicate message ignored"))
  {
  }

  /** An admitted event is marked as processed and then screened. */
  lemma HandleAdmitted(cfg: Config, st: ChatState, ev: Event, nowMs: int, botOpenId: Option<string>,
                       resolve: (string, seq<Mention>) -> string, placeholderId: Option<string>,
                       ai: (string, seq<Turn>) -> AiOutcome)
    requires Admitted(cfg.verificationToken, ev, st.processed)
    ensures Handle(cfg, st, ev, nowMs, botOpenId, resolve, placeholderId, ai)
         == Outcome(cfg, st.(processed := st.processed + {ev.message.value.messageId.value}),
                    Screen(cfg, ev.message.value, nowMs, botOpenId, resolve), placeholderId, ai)
  {
  }

  method Deliver(outbox: Outbox, chat: string, placeholder: Option<string>, c: Content)
    modifies outbox
    ensures outbox.log == old(outbox.log) + [DeliveryFor(chat, placeholder, c)]
  {
    if placeholder.Some? {
      outbox.Patch(placeholder.value, c);
    } else {
      outbox.Send(chat, c);
    }
  }

  /** A conversation turn against the store and the chat platform. */
  method Talk(store: Store, outbox: Outbox, cfg: Config, chat: string, text: string, placeholderId: Option<string>,
              ai: (string, seq<Turn>) -> AiOutcome)
    returns (resp: Response)
    modifies store, outbox
    ensures var e := Turnaround(cfg, old(store.State()), chat, text, placeholderId, ai);
      store.State() == e.state && outbox.log == old(outbox.log) + e.sent && resp == e.response
  {
    var placeholder: Option<string> := None;
    if cfg.sendAndReplace {
      outbox.Send(chat, Plain(cfg.placeholderMessage));
      placeholder := placeholderId;
    }
    var exchange := Ask(cfg, SettingsOf(store.State(), chat), ContextOf(store.State(), chat), text, ai);
    resp := Conclude(store, outbox, chat, text, placeholder, exchange);
  }

  method Conclude(store: Store, outbox: Outbox, chat: string, text: string, target: Option<string>, x: Exchange)
    returns (resp: Response)
    modifies store, outbox
    ensures var e := Conclusion(old(store.State()), chat, text, target, x);
      store.State() == e.state && outbox.log == old(outbox.log) + e.sent && resp == e.response
  {
    match x {
      case Failed =>
        Deliver(outbox, chat, target, Notice(ProcessingError));
        resp := Reply(500, "Error occurred");
      case Answered(reply) =>
        Deliver(outbox, chat, target, Plain(reply));
        store.SaveChatContext(chat, ContextOf(store.State(), chat) + [Turn(User, text), Turn(Assistant, reply)]);
        resp := Reply(200, "Successfully processed");
    }
  }

  /** The part of `lark_callback` after the message id is marked. */
  method Proceed(store: Store, outbox: Outbox, cfg: Config, m: Message, nowMs: int, botOpenId: Option<string>,
                 resolve: (string, seq<Mention>) -> string, placeholderId: Option<string>,
                 ai: (string, seq<Turn>) -> AiOutcome)
    returns (resp: Response)
    modifies store, outbox
    ensures var e := Outcome(cfg, old(store.State()), Screen(cfg, m, nowMs, botOpenId, resolve), placeholderId, ai);
      store.State() == e.state && outbox.log == old(outbox.log) + e.sent && resp == e.response
  {
    if m.createTimeMs.Some? && IsStale(cfg, m.createTimeMs.value, nowMs) {
      return Reply(200, "Stale message ignored");
    }
    if m.text.None? {
      return Reply(500, "Internal Server Error");
    }
    resp := Respond(store, outbox, cfg, m, Resolved(m, resolve), botOpenId, placeholderId, ai);
  }

  method DoCommand(store: Store, outbox: Outbox, cfg: Config, chat: string, command: string, args: seq<string>)
    returns (resp: Response)
    modifies store, outbox
    ensures var e := CommandEffect(cfg, old(store.State()), chat, command, args);
      store.State() == e.state && outbox.log == old(outbox.log) + e.sent && resp == e.response
  {
    Commands.HandleCommand(store, outbox, cfg, command, args, chat);
    resp := Reply(200, "Command handled");
  }

  /** The part of `lark_callback` that acts on the resolved text. */
  method Respond(store: Store, outbox: Outbox, cfg: Config, m: Message, text: string, botOpenId: Option<string>,
                 placeholderId: Option<string>, ai: (string, seq<Turn>) -> AiOutcome)
    returns (resp: Response)
    modifies store, outbox
    ensures var e := Outcome(cfg, old(store.State()), Route(m, text, botOpenId), placeholderId, ai);
      store.State() == e.state && outbox.log == old(outbox.log) + e.sent && resp == e.response
  {
    if IsCommand(text) {
      var parts := SplitCommand(text);
      assert Route(m, text, botOpenId) == RunCommand(m.chatId, parts.0, parts.1);
      CommandOutcome(cfg, store.State(), m.chatId, parts.0, parts.1, placeholderId, ai);
      resp := DoCommand(store, outbox, cfg, m.chatId, parts.0, parts.1);
    } else {
      resp := Engage(store, outbox, cfg, m, text, botOpenId, placeholderId, ai);
    }
  }

  /** Text that is not a command: the empty and mention gates, then a
      conversation turn. */
  method Engage(store: Store, outbox: Outbox, cfg: Config, m: Message, text: string, botOpenId: Option<string>,
                placeholderId: Option<string>, ai: (string, seq<Turn>) -> AiOutcome)
    returns (resp: Response)
    requires !IsCommand(text)
    modifies store, outbox
    ensures var e := Outcome(cfg, old(store.State()), Route(m, text, botOpenId), placeholderId, ai);
      store.State() == e.state && outbox.log == old(outbox.log) + e.sent && resp == e.response
  {
    if text == [] {
      assert Route(m, text, botOpenId) == EmptyText;
      return Reply(200, "Empty message content");
    }
    if m.chatType == Some("group") {
      if botOpenId.None? {
        assert Route(m, text, botOpenId) == NoBotId;
        return Reply(200, "Could not verify bot mention.");
      }
      if !Mentioned(m.mentions, botOpenId.value) {
        assert Route(m, text, botOpenId) == NotMentioned;
        return Reply(200, "Bot not mentioned");
      }
    }
    assert Route(m, text, botOpenId) == Converse(m.chatId, text);
    resp := Talk(store, outbox, cfg, m.chatId, text, placeholderId, ai);
  }

  /** `lark_callback` against the store and the chat platform. The clock
      (`nowMs`), the bot id lookup, `resolve_mentions`, the id returned
      for the placeholder message and the model call are parameters. */
  method Callback(store: Store, outbox: Outbox, cfg: Config, ev: Event, nowMs: int, botOpenId: Option<string>,
                  resolve: (string, seq<Mention>) -> string, placeholderId: Option<string>,
                  ai: (string, seq<Turn>) -> AiOutcome)
    returns (resp: Response)
    modifies store, outbox
    ensures var e := Handle(cfg, old(store.State()), ev, nowMs, botOpenId, resolve, placeholderId, ai);
      store.State() == e.state && outbox.log == old(outbox.log) + e.sent && resp == e.response
  {
    ghost var st0 := store.State();
    if !Admitted(cfg.verificationToken, ev, store.processed) {
      RejectedEventsChangeNothing(cfg, st0, ev, nowMs, botOpenId, resolve, placeholderId, ai);
    }
    if ev.challenge.Some? {
      return Challenge(ev.challenge.value);
    }
    if ev.token != cfg.verificationToken {
      return Reply(401, "Invalid token");
    }
    if ev.senderType == Some("app") || ev.message.None? {
      return Reply(200, "Ignoring message from bot or empty message");
    }
    var m := ev.message.value;
    if m.messageId.None? || m.messageId.value == [] || m.messageId.value in store.processed {
      return Reply(200, "Duplicate message ignored");
    }
    store.MarkProcessed(m.messageId.value);
    resp := Proceed(store, outbox, cfg, m, nowMs, botOpenId, resolve, placeholderId, ai);
    HandleAdmitted(cfg, st0, ev, nowMs, botOpenId, resolve, placeholderId, ai);
  }
}
