/** The collaborators the webhook handlers change state through:
    api/services/redis_service.py (per-chat settings, per-chat history,
    processed message ids) and api/services/lark_service.py (messages sent
    to and patched in a chat), plus the values of api/config.py. */
module Services {
  import opened Wrappers

  datatype Role = System | User | Assistant

  /** One `{"role": ..., "content": ...}` entry of a conversation. */
  datatype Turn = Turn(role: Role, content: string)

  /** The replies the bot sends, by kind; their rendered text is not
      modelled. */
  datatype Notice =
    | Help(currentRole: string, roles: set<string>, defaultModel: string)
    | Cleared
    | CurrentModel(model: string)
    | ModelSwitched(model: string)
    | CurrentRole(role: string)
    | RoleNotFound(role: string)
    | RoleSwitched(role: string, historyCleared: bool)
    | UnknownCommand(command: string)
    | LegacyHelp(roles: set<string>, defaultModel: string)
    | AskModelName(example: string)
    | AskRoleName(roles: set<string>)
    | LegacyRoleNotFound(role: string, roles: set<string>)
    | InitialSendFailed
    | ProcessingError

  datatype Content = Notice(notice: Notice) | Plain(text: string)

  /** One call into the chat platform: a new message, or an edit of one. */
  datatype Delivery = Send(chatId: string, content: Content) | Patch(messageId: string, content: Content)

  /** The process configuration the handlers read. */
  datatype Config = Config(
    openAiModel: string,            // OPENAI_MODEL
    defaultRole: string,            // DEFAULT_ROLE
    prompts: map<string, string>,   // PROMPTS: role name -> system prompt
    verificationToken: Option<string>,
    maxMessageAgeSeconds: int,      // MAX_MESSAGE_AGE_SECONDS
    sendAndReplace: bool,           // ENABLE_SEND_AND_REPLACE
    placeholderMessage: string)     // PLACEHOLDER_MESSAGE

  /** The Redis keys the bot uses, as a value: `settings:<chat>` hashes,
      `chat_context:<chat>` lists and `msg_id:<id>` markers. */
  datatype ChatState = ChatState(
    settings: map<string, map<string, string>>,
    contexts: map<string, seq<Turn>>,
    processed: set<string>)

  /** `get_chat_settings`: an absent hash reads as `{}`. */
  function SettingsOf(st: ChatState, chat: string): map<string, string> {
    if chat in st.settings then st.settings[chat] else map[]
  }

  /** `get_chat_context`: an absent key reads as `[]`. */
  function ContextOf(st: ChatState, chat: string): seq<Turn> {
    if chat in st.contexts then st.contexts[chat] else []
  }

  /** `settings.get(key, default)`. */
  function Get(m: map<string, string>, key: string, default: string): string {
    if key in m then m[key] else default
  }

  class Store {
    var settings: map<string, map<string, string>>
    var contexts: map<string, seq<Turn>>
    var processed: set<string>

    constructor ()
      ensures settings == map[] && contexts == map[] && processed == {}
    {
      settings, contexts, processed := map[], map[], {};
    }

    function State(): ChatState
      reads this
    {
      ChatState(settings, contexts, processed)
    }

    /** `set_chat_setting`: one field of one chat's hash. */
    method SetChatSetting(chat: string, key: string, value: string)
      modifies this
      ensures settings == old(settings)[chat := SettingsOf(old(State()), chat)[key := value]]
      ensures contexts == old(contexts) && processed == old(processed)
    {
      settings := settings[chat := SettingsOf(State(), chat)[key := value]];
    }

    /** `clear_user_data`: deletes the chat's history and settings. */
    method ClearUserData(chat: string)
      modifies this
      ensures settings == old(settings) - {chat} && contexts == old(contexts) - {chat}
      ensures processed == old(processed)
    {
      contexts := contexts - {chat};
      settings := settings - {chat};
    }

    /** `clear_chat_context`: deletes the chat's history only. */
    method ClearChatContext(chat: string)
      modifies this
      ensures contexts == old(contexts) - {chat}
      ensures settings == old(settings) && processed == old(processed)
    {
      contexts := contexts - {chat};
    }

    /** `save_chat_context`. */
    method SaveChatContext(chat: string, context: seq<Turn>)
      modifies this
      ensures contexts == old(contexts)[chat := context]
      ensures settings == old(settings) && processed == old(processed)
    {
      contexts := contexts[chat := context];
    }

    /** `mark_message_as_processed`. */
    method MarkProcessed(id: string)
      modifies this
      ensures processed == old(processed) + {id}
      ensures settings == old(settings) && contexts == old(contexts)
    {
      processed := processed + {id};
    }
  }

  /** Everything sent to the chat platform, in order. */
  class Outbox {
    var log: seq<Delivery>

    constructor ()
      ensures log == []
    {
      log := [];
    }

    /** `send_message`. */
    method Send(chat: string, content: Content)
      modifies this
      ensures log == old(log) + [Delivery.Send(chat, content)]
    {
      log := log + [Delivery.Send(chat, content)];
    }

    /** `patch_message`. */
    method Patch(messageId: string, content: Content)
      modifies this
      ensures log == old(log) + [Delivery.Patch(messageId, content)]
    {
      log := log + [Delivery.Patch(messageId, content)];
    }
  }
}
