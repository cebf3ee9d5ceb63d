/** The older single-file webhook, api/lark_callback.py: the same
    admission checks as api/app.py, its own command handler (a role switch
    keeps the history), a request trimmed to the last
    `2 * CHAT_CONTEXT_MAX_MESSAGES + 1` messages, and a history that is
    saved untrimmed. */
module Legacy {
  import opened Wrappers
  import opened Services
  import opened Events
  import Text
  import Commands
  import Webhook

  const DefaultModel := "gpt-4.1"            // DEFAULT_OPENAI_MODEL
  const MaxMessages := 20                    // CHAT_CONTEXT_MAX_MESSAGES
  const Limit := MaxMessages * 2 + 1
  const Placeholder := "Thinking... \U{1F9D0}"

  /** `trim_chat_context`: the last `Limit` messages of a longer list. */
  function Trim<T>(messages: seq<T>): (r: seq<T>)
    ensures |r| <= Limit && |r| <= |messages|
    ensures r == messages[|messages| - |r|..]
    ensures |messages| <= Limit ==> r == messages
    ensures |messages| > Limit ==> |r| == Limit
  {
    if |messages| > Limit then messages[|messages| - Limit..] else messages
  }

  /** Trimming keeps the newest message; once the history has grown
      past the limit the system prompt at the head is what goes first. */
  lemma TrimRequest(prompt: Turn, history: seq<Turn>, user: Turn)
    requires prompt.role == System && user.role == User
    requires forall i | 0 <= i < |history| :: history[i].role != System
    ensures var r := Trim([prompt] + history + [user]);
      && r[|r| - 1] == user
      && (|history| + 2 <= Limit ==> r[0] == prompt)
      && (|history| + 2 > Limit ==> forall i | 0 <= i < |r| :: r[i].role != System)
  {
    var s := [prompt] + history + [user];
    var r := Trim(s);
    if |s| > Limit {
      forall i | 0 <= i < |r| ensures r[i].role != System {
        var j := |s| - Limit + i;
        assert r[i] == s[j];
        if j < |s| - 1 {
          assert s[j] == history[j - 1];
        }
      }
    }
  }

  /** The older `handle_command` on the state of the store. */
  function Command(prompts: map<string, string>, st: ChatState, chat: string, command: string, args: seq<string>): (r: Commands.Step)
    ensures r.state.processed == st.processed
    ensures forall c | c != chat :: SettingsOf(r.state, c) == SettingsOf(st, c) && ContextOf(r.state, c) == ContextOf(st, c)
    ensures command != "/clear" ==> ContextOf(r.state, chat) == ContextOf(st, chat)
    ensures command == "/model" && args == [] ==> r.state == st && r.reply == AskModelName(DefaultModel)
    ensures command == "/role" && args == [] ==> r.state == st && r.reply == AskRoleName(prompts.Keys)
    ensures command == "/clear" ==> SettingsOf(r.state, chat) == map[] && ContextOf(r.state, chat) == []
    ensures command == "/model" && args != [] ==>
      SettingsOf(r.state, chat) == SettingsOf(st, chat)["model" := Text.Strip(args[0])]
    ensures command == "/role" && args != [] && Text.Strip(args[0]) in prompts ==>
      SettingsOf(r.state, chat) == SettingsOf(st, chat)["role" := Text.Strip(args[0])]
    ensures command == "/role" && args != [] && Text.Strip(args[0]) !in prompts ==>
      r.state == st && r.reply == LegacyRoleNotFound(Text.Strip(args[0]), prompts.Keys)
    ensures command !in {"/clear", "/model", "/role"} ==> r.state == st
  {
    if command == "/help" then
      Commands.Step(st, LegacyHelp(prompts.Keys, DefaultModel))
    else if command == "/clear" then
      Commands.Step(Commands.ClearChat(st, chat), Cleared)
    else if command == "/model" then
      if args == [] then Commands.Step(st, AskModelName(DefaultModel))
      else
        var model := Text.Strip(args[0]);
        Commands.Step(Commands.SetSetting(st, chat, "model", model, false), ModelSwitched(model))
    else if command == "/role" then
      if args == [] then Commands.Step(st, AskRoleName(prompts.Keys))
      else
        var role := Text.Strip(args[0]);
        if role !in prompts then Commands.Step(st, LegacyRoleNotFound(role, prompts.Keys))
        else Commands.Step(Commands.SetSetting(st, chat, "role", role, false), RoleSwitched(role, false))
    else
      Commands.Step(st, UnknownCommand(command))
  }

  /** The two handlers disagree on a role switch: the newer one clears
      the chat's history, the older one keeps it. */
  lemma RoleSwitchKeepsHistory(cfg: Config, st: ChatState, chat: string, args: seq<string>)
    requires args != [] && Text.Strip(args[0]) in cfg.prompts
    ensures var old_ := Command(cfg.prompts, st, chat, "/role", args);
      var new_ := Commands.Command(cfg, st, chat, "/role", args);
      && SettingsOf(old_.state, chat) == SettingsOf(new_.state, chat)
      && ContextOf(old_.state, chat) == ContextOf(st, chat)
      && ContextOf(new_.state, chat) == []
  {
  }

  method HandleCommand(store: Store, outbox: Outbox, prompts: map<string, string>, command: string, args: seq<string>, chat: string)
    modifies store, outbox
    ensures store.State() == Command(prompts, old(store.State()), chat, command, args).state
    ensures outbox.log == old(outbox.log)
                          + [Delivery.Send(chat, Notice(Command(prompts, old(store.State()), chat, command, args).reply))]
  {
    if command == "/help" {
      outbox.Send(chat, Notice(LegacyHelp(prompts.Keys, DefaultModel)));
    } else if command == "/clear" {
      store.ClearUserData(chat);
      outbox.Send(chat, Notice(Cleared));
    } else if command == "/model" {
      if args == [] {
        outbox.Send(chat, Notice(AskModelName(DefaultModel)));
        return;
      }
      var model := Text.Strip(args[0]);
      store.SetChatSetting(chat, "model", model);
      outbox.Send(chat, Notice(ModelSwitched(model)));
    } else if command == "/role" {
      if args == [] {
        outbox.Send(chat, Notice(AskRoleName(prompts.Keys)));
        return;
      }
      var role := Text.Strip(args[0]);
      if role !in prompts {
        outbox.Send(chat, Notice(LegacyRoleNotFound(role, prompts.Keys)));
        return;
      }
      store.SetChatSetting(chat, "role", role);
      outbox.Send(chat, Notice(RoleSwitched(role, false)));
    } else {
      outbox.Send(chat, Notice(UnknownCommand(command)));
    }
  }

  /** Where an event leaves the checks of lark_callback.py:214-248. */
  datatype Verdict =
    | EchoChallenge(challenge: string)
    | BadToken
    | NotAMessage
    | Duplicate
    | BadContent
    | RunCommand(chat: string, command: string, args: seq<string>)
    | Converse(chat: string, text: string)
    | NothingToSay

  function Gate(token: Option<string>, ev: Event, processed: set<string>): (v: Verdict)
    ensures (v.EchoChallenge? || v.BadToken? || v.NotAMessage? || v.Duplicate?) <==> !Admitted(token, ev, processed)
    ensures v.Converse? ==> v.text != [] && v.text[0] != '/' && v.chat == ev.message.value.chatId
  {
    if ev.challenge.Some? then EchoChallenge(ev.challenge.value)
    else if ev.token != token then BadToken
    else if ev.senderType == Some("app") || ev.message.None? then NotAMessage
    else
      var m := ev.message.value;
      if m.messageId.None? || m.messageId.value == [] || m.messageId.value in processed then Duplicate
      else Screen(m)
  }

  /** A conversation turn only happens for a text message with
      non-blank text that is not a command; there is no mention check. */
  lemma ConverseIff(token: Option<string>, ev: Event, processed: set<string>)
    ensures Gate(token, ev, processed).Converse?
        <==> && Admitted(token, ev, processed)
             && ev.message.value.messageType == Some("text")
             && ev.message.value.text.Some?
             && var t := Text.Strip(ev.message.value.text.value); t != [] && t[0] != '/'
  {
  }

  /** The model and the trimmed messages of the request
      (lark_callback.py:262-272); `None` when `PROMPTS['default']`
      raises. Unlike api/app.py, an empty stored model or role is used
      as it is. */
  function Request(prompts: map<string, string>, settings: map<string, string>, history: seq<Turn>, text: string): (r: Option<(string, seq<Turn>)>)
    ensures r.Some? <==> "default" in prompts
    ensures r.Some? ==> r.value.0 == Get(settings, "model", DefaultModel)
    ensures r.Some? ==> |r.value.1| <= Limit && r.value.1 != [] && r.value.1[|r.value.1| - 1] == Turn(User, text)
  {
    if "default" !in prompts then None
    else
      var role := Get(settings, "role", "default");
      var prompt := if role in prompts then prompts[role] else prompts["default"];
      Some((Get(settings, "model", DefaultModel), Trim([Turn(System, prompt)] + history + [Turn(User, text)])))
  }

  /** The prompt is the stored role's, or the default one when the role
      is unset or unknown; the history sits between it and the user's
      text, and once the three no longer fit in `Limit` messages the
      oldest go first, the prompt before any history. */
  lemma RequestChoices(prompts: map<string, string>, settings: map<string, string>, history: seq<Turn>, text: string)
    requires "default" in prompts
    ensures var r := Request(prompts, settings, history, text).value.1;
      var role := Get(settings, "role", "default");
      && (|history| + 2 <= Limit ==>
            && |r| == |history| + 2
            && r[0] == Turn(System, if role in prompts then prompts[role] else prompts["default"])
            && r[1..|history| + 1] == history)
      && (|history| + 2 > Limit ==>
            |r| == Limit && r[..Limit - 1] == history[|history| - (Limit - 1)..])
  {
    var role := Get(settings, "role", "default");
    var prompt := if role in prompts then prompts[role] else prompts["default"];
    var all := [Turn(System, prompt)] + history + [Turn(User, text)];
    assert Request(prompts, settings, history, text).value.1 == Trim(all);
    if |history| + 2 > Limit {
      TrimLong(Turn(System, prompt), history, Turn(User, text));
    } else {
      assert all[1..|history| + 1] == history;
    }
  }

  /** Past the limit, the trimmed request is the newest history followed
      by the user's message. */
  lemma TrimLong(prompt: Turn, history: seq<Turn>, user: Turn)
    requires |history| + 2 > Limit
    ensures var r := Trim([prompt] + history + [user]);
      |r| == Limit && r[..Limit - 1] == history[|history| - (Limit - 1)..]
  {
    var all := [prompt] + history + [user];
    var r := Trim(all);
    assert r[..Limit - 1] == all[|all| - Limit..|all| - 1];
    assert all[..|all| - 1] == [prompt] + history;
    assert all[|all| - Limit..|all| - 1] == ([prompt] + history)[|all| - Limit..];
  }

  /** A conversation turn (lark_callback.py:250-294), given the id the
      platform returned for the placeholder (`None` when sending it
      failed) and the model call. */
  function Turnaround(prompts: map<string, string>, st: ChatState, chat: string, text: string,
                      placeholderId: Option<string>, ai: (string, seq<Turn>) -> Webhook.AiOutcome): (e: Webhook.Effect)
    ensures e.state.settings == st.settings && e.state.processed == st.processed
    ensures |e.sent| == 2 && e.sent[0] == Send(chat, Plain(Placeholder))
    ensures e.response == Reply(200, if placeholderId.None? then "error: could not send initial message" else "ok")
    ensures forall c | c != chat :: ContextOf(e.state, c) == ContextOf(st, c)
    ensures e.state != st ==> placeholderId.Some? && Reaction(prompts, st, chat, text, ai).Answer?
  {
    var pre := [Send(chat, Plain(Placeholder))];
    if placeholderId.None? then
      Webhook.Effect(st, pre + [Send(chat, Notice(InitialSendFailed))], Reply(200, "error: could not send initial message"))
    else
      var c := Conclusion(st, chat, text, placeholderId.value, Reaction(prompts, st, chat, text, ai));
      Webhook.Effect(c.state, pre + c.sent, c.response)
  }

  /** What the model call comes to: its answer, or a failure when the
      request cannot be built or the call raises. */
  function Reaction(prompts: map<string, string>, st: ChatState, chat: string, text: string,
                    ai: (string, seq<Turn>) -> Webhook.AiOutcome): (o: Webhook.AiOutcome)
    ensures o.Answer? <==> "default" in prompts
                           && var q := Request(prompts, SettingsOf(st, chat), ContextOf(st, chat), text).value;
                              ai(q.0, q.1).Answer?
  {
    match Request(prompts, SettingsOf(st, chat), ContextOf(st, chat), text)
    case None => Webhook.Raised
    case Some(q) => ai(q.0, q.1)
  }

  /** The end of a turn (lark_callback.py:282-296): the placeholder is
      patched with the stripped answer or an error notice, and an answer
      is saved after the user's text. */
  function Conclusion(st: ChatState, chat: string, text: string, id: string, outcome: Webhook.AiOutcome): (e: Webhook.Effect)
    ensures |e.sent| == 1 && e.sent[0].Patch? && e.sent[0].messageId == id
    ensures e.state.settings == st.settings && e.state.processed == st.processed
    ensures e.response == Reply(200, "ok")
    ensures forall c | c != chat :: ContextOf(e.state, c) == ContextOf(st, c)
    ensures outcome.Raised? ==> e.state == st && e.sent[0].content == Notice(ProcessingError)
    ensures outcome.Answer? ==>
      && ContextOf(e.state, chat) == ContextOf(st, chat) + [Turn(User, text), Turn(Assistant, Text.Strip(outcome.text))]
      && e.sent[0].content == Plain(Text.Strip(outcome.text))
  {
    match outcome
    case Raised => Webhook.Effect(st, [Patch(id, Notice(ProcessingError))], Reply(200, "ok"))
    case Answer(a) =>
      var reply := Text.Strip(a);
      Webhook.Effect(Appended(st, chat, [Turn(User, text), Turn(Assistant, reply)]), [Patch(id, Plain(reply))], Reply(200, "ok"))
  }

  /** `history.append` twice and `save_chat_context`: this chat's history
      grows by `turns` and nothing else changes. */
  function Appended(st: ChatState, chat: string, turns: seq<Turn>): (r: ChatState)
    ensures r.settings == st.settings && r.processed == st.processed
    ensures ContextOf(r, chat) == ContextOf(st, chat) + turns
    ensures forall c | c != chat :: ContextOf(r, c) == ContextOf(st, c)
  {
    st.(contexts := st.contexts[chat := ContextOf(st, chat) + turns])
  }

  /** The stored history is not trimmed: an answered turn always adds
      two messages, however long the history already is, while the
      request sent with it never exceeds `Limit` messages. */
  lemma HistoryGrowsUntrimmed(prompts: map<string, string>, st: ChatState, chat: string, text: string,
                              placeholderId: Option<string>, ai: (string, seq<Turn>) -> Webhook.AiOutcome)
    requires placeholderId.Some? && "default" in prompts
    requires var q := Request(prompts, SettingsOf(st, chat), ContextOf(st, chat), text).value; ai(q.0, q.1).Answer?
    ensures var e := Turnaround(prompts, st, chat, text, placeholderId, ai);
      var q := Request(prompts, SettingsOf(st, chat), ContextOf(st, chat), text).value;
      && ContextOf(e.state, chat) == ContextOf(st, chat) + [Turn(User, text), Turn(Assistant, Text.Strip(ai(q.0, q.1).text))]
      && |ContextOf(e.state, chat)| == |ContextOf(st, chat)| + 2
      && e.sent[1] == Patch(placeholderId.value, Plain(Text.Strip(ai(q.0, q.1).text)))
  {
  }

  function Outcome(prompts: map<string, string>, st: ChatState, v: Verdict, placeholderId: Option<string>,
                   ai: (string, seq<Turn>) -> Webhook.AiOutcome): (e: Webhook.Effect)
    ensures e.state.processed == st.processed
    ensures !v.RunCommand? && !v.Converse? ==> e.state == st && e.sent == []
    ensures v.RunCommand? ==> |e.sent| == 1 && e.sent[0].Send? && e.sent[0].chatId == v.chat
    ensures v.Converse? ==> e.state.settings == st.settings && |e.sent| == 2 && e.response.Reply? && e.response.status == 200
  {
    if v.RunCommand? then CommandEffect(prompts, st, v.chat, v.command, v.args)
    else match v
    case EchoChallenge(c) => Webhook.Effect(st, [], Challenge(c))
    case BadToken => Webhook.Effect(st, [], Reply(401, "Invalid token"))
    case NotAMessage => Webhook.Effect(st, [], Reply(200, "Ignoring bot message or empty message"))
    case Duplicate => Webhook.Effect(st, [], Reply(200, "ok, duplicate message ignored"))
    case BadContent => Webhook.Effect(st, [], Reply(500, "Internal Server Error"))
    case Converse(chat, text) => Turnaround(prompts, st, chat, text, placeholderId, ai)
    case NothingToSay => Webhook.Effect(st, [], Reply(200, "ok"))
  }

  /** One callback, start to end. */
  function Handle(prompts: map<string, string>, token: Option<string>, st: ChatState, ev: Event,
                  placeholderId: Option<string>, ai: (string, seq<Turn>) -> Webhook.AiOutcome): (e: Webhook.Effect)
    ensures Admitted(token, ev, st.processed) ==> e.state.processed == st.processed + {ev.message.value.messageId.value}
    ensures !Admitted(token, ev, st.processed) ==> e.state == st && e.sent == []
  {
    var st1 := if Admitted(token, ev, st.processed)
               then st.(processed := st.processed + {ev.message.value.messageId.value}) else st;
    Outcome(prompts, st1, Gate(token, ev, st.processed), placeholderId, ai)
  }

  /** A conversation turn against the store and the chat platform. */
  method Talk(store: Store, outbox: Outbox, prompts: map<string, string>, chat: string, text: string,
              placeholderId: Option<string>, ai: (string, seq<Turn>) -> Webhook.AiOutcome)
    returns (resp: Response)
    modifies store, outbox
    ensures var e := Turnaround(prompts, old(store.State()), chat, text, placeholderId, ai);
      store.State() == e.state && outbox.log == old(outbox.log) + e.sent && resp == e.response
  {
    outbox.Send(chat, Plain(Placeholder));
    if placeholderId.None? {
      outbox.Send(chat, Notice(InitialSendFailed));
      return Reply(200, "error: could not send initial message");
    }
    var request := Request(prompts, SettingsOf(store.State(), chat), ContextOf(store.State(), chat), text);
    var outcome := if request.None? then Webhook.Raised else ai(request.value.0, request.value.1);
    assert outcome == Reaction(prompts, store.State(), chat, text, ai);
    resp := Conclude(store, outbox, chat, text, placeholderId.value, outcome);
  }

  method Conclude(store: Store, outbox: Outbox, chat: string, text: string, id: string, outcome: Webhook.AiOutcome)
    returns (resp: Response)
    modifies store, outbox
    ensures var e := Conclusion(old(store.State()), chat, text, id, outcome);
      store.State() == e.state && outbox.log == old(outbox.log) + e.sent && resp == e.response
  {
    match outcome {
      case Raised =>
        outbox.Patch(id, Notice(ProcessingError));
      case Answer(a) =>
        var reply := Text.Strip(a);
        outbox.Patch(id, Plain(reply));
        store.SaveChatContext(chat, ContextOf(store.State(), chat) + [Turn(User, text), Turn(Assistant, reply)]);
    }
    resp := Reply(200, "ok");
  }

  method DoCommand(store: Store, outbox: Outbox, prompts: map<string, string>, chat: string, command: string,
                   args: seq<string>, placeholderId: Option<string>, ai: (string, seq<Turn>) -> Webhook.AiOutcome)
    returns (resp: Response)
    modifies store, outbox
    ensures var e := Outcome(prompts, old(store.State()), RunCommand(chat, command, args), placeholderId, ai);
      store.State() == e.state && outbox.log == old(outbox.log) + e.sent && resp == e.response
  {
    CommandOutcome(prompts, store.State(), chat, command, args, placeholderId, ai);
    HandleCommand(store, outbox, prompts, command, args, chat);
    resp := Reply(200, "Command handled");
  }

  /** A command (lark_callback.py:242-246): the handler's step and its one reply. */
  function CommandEffect(prompts: map<string, string>, st: ChatState, chat: string, command: string, args: seq<string>): (e: Webhook.Effect)
    ensures |e.sent| == 1 && e.sent[0].Send? && e.sent[0].chatId == chat
    ensures e.state.processed == st.processed
  {
    var step := Command(prompts, st, chat, command, args);
    Webhook.Effect(step.state, [Send(chat, Notice(step.reply))], Reply(200, "Command handled"))
  }

  /** A command verdict has exactly the command's effect. */
  lemma CommandOutcome(prompts: map<string, string>, st: ChatState, chat: string, command: string, args: seq<string>,
                       placeholderId: Option<string>, ai: (string, seq<Turn>) -> Webhook.AiOutcome)
    ensures Outcome(prompts, st, RunCommand(chat, command, args), placeholderId, ai) == CommandEffect(prompts, st, chat, command, args)
  {
  }

  /** `lark_callback` of lark_callback.py against the store and the chat
      platform. */
  method Callback(store: Store, outbox: Outbox, prompts: map<string, string>, token: Option<string>, ev: Event,
                  placeholderId: Option<string>, ai: (string, seq<Turn>) -> Webhook.AiOutcome)
    returns (resp: Response)
    modifies store, outbox
    ensures var e := Handle(prompts, token, old(store.State()), ev, placeholderId, ai);
      store.State() == e.state && outbox.log == old(outbox.log) + e.sent && resp == e.response
  {
    ghost var st0 := store.State();
    if !Admitted(token, ev, store.processed) {
      HandleRejected(prompts, token, st0, ev, placeholderId, ai);
    }
    if ev.challenge.Some? {
      return Challenge(ev.challenge.value);
    }
    if ev.token != token {
      return Reply(401, "Invalid token");
    }
    if ev.senderType == Some("app") || ev.message.None? {
      return Reply(200, "Ignoring bot message or empty message");
    }
    var m := ev.message.value;
    if m.messageId.None? || m.messageId.value == [] || m.messageId.value in store.processed {
      return Reply(200, "ok, duplicate message ignored");
    }
    store.MarkProcessed(m.messageId.value);
    resp := Proceed(store, outbox, prompts, m, placeholderId, ai);
    HandleAdmitted(prompts, token, st0, ev, placeholderId, ai);
  }

  /** An event the gate turns away leaves the state as it was, sends
      nothing, and is answered by the gate's verdict. */
  lemma HandleRejected(prompts: map<string, string>, token: Option<string>, st: ChatState, ev: Event,
                       placeholderId: Option<string>, ai: (string, seq<Turn>) -> Webhook.AiOutcome)
    requires !Admitted(token, ev, st.processed)
    ensures var e := Handle(prompts, token, st, ev, placeholderId, ai);
      && e.state == st && e.sent == []
      && e.response == (if ev.challenge.Some? then Challenge(ev.challenge.value)
                        else if ev.token != token then Reply(401, "Invalid token")
                        else if ev.senderType == Some("app") || ev.message.None? then Reply(200, "Ignoring bot message or empty message")
                        else Reply(200, "ok, duplicate message ignored"))
  {
  }

  /** An admitted event is marked as processed and then screened. */
  lemma HandleAdmitted(prompts: map<string, string>, token: Option<string>, st: ChatState, ev: Event,
                       placeholderId: Option<string>, ai: (string, seq<Turn>) -> Webhook.AiOutcome)
    requires Admitted(token, ev, st.processed)
    ensures Handle(prompts, token, st, ev, placeholderId, ai)
         == Outcome(prompts, st.(processed := st.processed + {ev.message.value.messageId.value}),
                    Screen(ev.message.value), placeholderId, ai)
  {
    assert Gate(token, ev, st.processed) == Screen(ev.message.value);
  }

  /** The checks of the message type and text, after marking. */
  function Screen(m: Message): (v: Verdict)
    ensures !(v.EchoChallenge? || v.BadToken? || v.NotAMessage? || v.Duplicate?)
    ensures v.Converse? ==> v.chat == m.chatId && v.text != [] && v.text[0] != '/'
  {
    if m.messageType != Some("text") then NothingToSay
    else if m.text.None? then BadContent
    else Classify(m.chatId, Text.Strip(m.text.value))
  }

  /** A command, a message to answer, or blank text. */
  function Classify(chat: string, text: string): (v: Verdict)
    ensures v.RunCommand? || v.Converse? || v.NothingToSay?
    ensures v.Converse? <==> text != [] && text[0] != '/'
    ensures v.Converse? ==> v.chat == chat && v.text == text
    ensures v.RunCommand? ==> v.chat == chat && v.command != [] && v.command[0] == '/'
  {
    if IsCommand(text) then
      var parts := SplitCommand(text);
      RunCommand(chat, parts.0, parts.1)
    else if text != [] then Converse(chat, text)
    else NothingToSay
  }

  method Proceed(store: Store, outbox: Outbox, prompts: map<string, string>, m: Message,
                 placeholderId: Option<string>, ai: (string, seq<Turn>) -> Webhook.AiOutcome)
    returns (resp: Response)
    modifies store, outbox
    ensures var e := Outcome(prompts, old(store.State()), Screen(m), placeholderId, ai);
      store.State() == e.state && outbox.log == old(outbox.log) + e.sent && resp == e.response
  {
    if m.messageType != Some("text") {
      return Reply(200, "ok");
    }
    if m.text.None? {
      return Reply(500, "Internal Server Error");
    }
    resp := Act(store, outbox, prompts, m.chatId, Text.Strip(m.text.value), placeholderId, ai);
  }

  method Act(store: Store, outbox: Outbox, prompts: map<string, string>, chat: string, text: string,
             placeholderId: Option<string>, ai: (string, seq<Turn>) -> Webhook.AiOutcome)
    returns (resp: Response)
    modifies store, outbox
    ensures var e := Outcome(prompts, old(store.State()), Classify(chat, text), placeholderId, ai);
      store.State() == e.state && outbox.log == old(outbox.log) + e.sent && resp == e.response
  {
    if IsCommand(text) {
      var parts := SplitCommand(text);
      resp := DoCommand(store, outbox, prompts, chat, parts.0, parts.1, placeholderId, ai);
    } else if text != [] {
      resp := Talk(store, outbox, prompts, chat, text, placeholderId, ai);
    } else {
      resp := Reply(200, "ok");
    }
  }
}
