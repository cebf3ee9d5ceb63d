/** The slash-command state machine of api/commands/handler.py: every
    command answers with exactly one message to the chat it came from and
    changes only that chat's settings and history. */
module Commands {
  import opened Services
  import Text

  /** The store after a command, and the one reply it sends. */
  datatype Step = Step(state: ChatState, reply: Notice)

  predicate Known(command: string) {
    command == "/help" || command == "/clear" || command == "/model" || command == "/role"
  }

  /** `clear_user_data` on the state: the chat's settings and history go. */
  function ClearChat(st: ChatState, chat: string): (r: ChatState)
    ensures SettingsOf(r, chat) == map[] && ContextOf(r, chat) == []
    ensures r.processed == st.processed
    ensures forall c | c != chat :: SettingsOf(r, c) == SettingsOf(st, c) && ContextOf(r, c) == ContextOf(st, c)
  {
    st.(settings := st.settings - {chat}, contexts := st.contexts - {chat})
  }

  /** `set_chat_setting` on the state, optionally followed by
      `clear_chat_context`: one field of the chat's settings changes,
      and its history is kept or dropped. */
  function SetSetting(st: ChatState, chat: string, key: string, value: string, clearHistory: bool): (r: ChatState)
    ensures SettingsOf(r, chat) == SettingsOf(st, chat)[key := value]
    ensures ContextOf(r, chat) == if clearHistory then [] else ContextOf(st, chat)
    ensures r.processed == st.processed
    ensures forall c | c != chat :: SettingsOf(r, c) == SettingsOf(st, c) && ContextOf(r, c) == ContextOf(st, c)
  {
    var s := st.(settings := st.settings[chat := SettingsOf(st, chat)[key := value]]);
    if clearHistory then s.(contexts := s.contexts - {chat}) else s
  }

  /** `handle_command` on the state of the store, as a value. */
  function Command(cfg: Config, st: ChatState, chat: string, command: string, args: seq<string>): (r: Step)
    ensures r.state.processed == st.processed
    ensures forall c | c != chat :: SettingsOf(r.state, c) == SettingsOf(st, c) && ContextOf(r.state, c) == ContextOf(st, c)
    // the queries, a rejected role and an unknown command change nothing
    ensures (command == "/help" || (command in {"/model", "/role"} && args == [])
             || (command == "/role" && args != [] && Text.Strip(args[0]) !in cfg.prompts)
             || !Known(command)) ==> r.state == st
  {
    var settings := SettingsOf(st, chat);
    if command == "/help" then
      Step(st, Help(Get(settings, "role", cfg.defaultRole), cfg.prompts.Keys, cfg.openAiModel))
    else if command == "/clear" then
      Step(ClearChat(st, chat), Cleared)
    else if command == "/model" then
      if args == [] then Step(st, CurrentModel(Get(settings, "model", cfg.openAiModel)))
      else
        var model := Text.Strip(args[0]);
        Step(SetSetting(st, chat, "model", model, false), ModelSwitched(model))
    else if command == "/role" then
      if args == [] then Step(st, CurrentRole(Get(settings, "role", cfg.defaultRole)))
      else
        var role := Text.Strip(args[0]);
        if role !in cfg.prompts then Step(st, RoleNotFound(role))
        else Step(SetSetting(st, chat, "role", role, true), RoleSwitched(role, true))
    else
      Step(st, UnknownCommand(command))
  }

  /** `/clear` forgets both the chat's settings and its history. */
  lemma ClearForgets(cfg: Config, st: ChatState, chat: string, args: seq<string>)
    ensures var r := Command(cfg, st, chat, "/clear", args);
      SettingsOf(r.state, chat) == map[] && ContextOf(r.state, chat) == [] && r.reply == Cleared
  {
  }

  /** `/model` without an argument reports the chat's model, or the
      configured default when the chat never chose one. */
  lemma ModelQuery(cfg: Config, st: ChatState, chat: string)
    ensures Command(cfg, st, chat, "/model", []).reply
         == CurrentModel(if "model" in SettingsOf(st, chat) then SettingsOf(st, chat)["model"] else cfg.openAiModel)
  {
  }

  /** `/model m` stores the stripped `m` for this chat, keeps the chat's
      other settings and its history. */
  lemma ModelSwitch(cfg: Config, st: ChatState, chat: string, args: seq<string>)
    requires args != []
    ensures var r := Command(cfg, st, chat, "/model", args);
      && SettingsOf(r.state, chat) == SettingsOf(st, chat)["model" := Text.Strip(args[0])]
      && ContextOf(r.state, chat) == ContextOf(st, chat)
      && r.reply == ModelSwitched(Text.Strip(args[0]))
  {
  }

  /** A switch to a known role stores the role and clears the chat's
      history; the reply says so. */
  lemma RoleSwitchClearsHistory(cfg: Config, st: ChatState, chat: string, args: seq<string>)
    requires args != [] && Text.Strip(args[0]) in cfg.prompts
    ensures var r := Command(cfg, st, chat, "/role", args);
      && SettingsOf(r.state, chat) == SettingsOf(st, chat)["role" := Text.Strip(args[0])]
      && ContextOf(r.state, chat) == []
      && r.reply == RoleSwitched(Text.Strip(args[0]), true)
  {
  }

  /** After a command, the stored role of the chat is always one the
      configuration knows, provided it was before. */
  lemma RoleStaysKnown(cfg: Config, st: ChatState, chat: string, command: string, args: seq<string>)
    requires "role" in SettingsOf(st, chat) ==> SettingsOf(st, chat)["role"] in cfg.prompts
    ensures var s := SettingsOf(Command(cfg, st, chat, command, args).state, chat);
      "role" in s ==> s["role"] in cfg.prompts
  {
  }

  /** `handle_command` against the store and the chat platform: one
      message to `chat`, and the store moves as `Command` says. */
  method HandleCommand(store: Store, outbox: Outbox, cfg: Config, command: string, args: seq<string>, chat: string)
    modifies store, outbox
    ensures store.State() == Command(cfg, old(store.State()), chat, command, args).state
    ensures outbox.log == old(outbox.log)
                          + [Delivery.Send(chat, Notice(Command(cfg, old(store.State()), chat, command, args).reply))]
  {
    var settings := SettingsOf(store.State(), chat);
    if command == "/help" {
      outbox.Send(chat, Notice(Help(Get(settings, "role", cfg.defaultRole), cfg.prompts.Keys, cfg.openAiModel)));
    } else if command == "/clear" {
      store.ClearUserData(chat);
      outbox.Send(chat, Notice(Cleared));
    } else if command == "/model" {
      if args == [] {
        outbox.Send(chat, Notice(CurrentModel(Get(settings, "model", cfg.openAiModel))));
        return;
      }
      var model := Text.Strip(args[0]);
      store.SetChatSetting(chat, "model", model);
      outbox.Send(chat, Notice(ModelSwitched(model)));
    } else if command == "/role" {
      if args == [] {
        outbox.Send(chat, Notice(CurrentRole(Get(settings, "role", cfg.defaultRole))));
        return;
      }
      var role := Text.Strip(args[0]);
      if role !in cfg.prompts {
        outbox.Send(chat, Notice(RoleNotFound(role)));
        return;
      }
      store.SetChatSetting(chat, "role", role);
      store.ClearChatContext(chat);
      outbox.Send(chat, Notice(RoleSwitched(role, true)));
    } else {
      outbox.Send(chat, Notice(UnknownCommand(command)));
    }
  }
}
