# lark_bot in Dafny

This is a model of the Lark (Feishu) chat bot in Mgrsc/lark_bot, with proofs about it. The model covers five parts:

- **The MCP tool registry** (`api/services/mcp_service.py`):
  - the JSON-Schema rewrite that closes every object schema (`additionalProperties: false`);
  - a tool-server client that holds a session and the tools it advertised;
  - the manager that connects the clients and builds the name-to-client routing table;
  - the flat tool catalog handed to the model;
  - `call_tool`, which never raises and turns every failure into a fixed error string.
- **The slash-command handler** (`api/commands/handler.py`): a state machine over the per-chat settings and history kept in Redis.
- **The webhook of `api/app.py`**:
  - a chain of gates: challenge, token, bot or empty message, duplicate id, staleness, content, command, empty text, group mention;
  - the id marking that happens in the middle of that chain;
  - the conversation turn: placeholder, model call, reply cleaning, delivery and history. As written, every turn fails at the model call (see "## Findings"). The model keeps both that turn and the evidently intended one, and the rest of it uses the intended one.
- **The reply cleaning**: removal of `<think>…</think>` and `<at…</at>` spans, stripping, and a fallback sentence.
- **The older webhook `api/lark_callback.py`**: its own command handler, a request trimmed to `2 * 20 + 1` messages, and a history that is saved untrimmed.

## How state is modelled

- Redis is the class `Services.Store`:
  - per-chat settings hashes;
  - per-chat history lists;
  - processed message ids.
- Messages sent to or edited on the chat platform are appended to `Services.Outbox.log`.
- The MCP client and manager are classes whose methods update their fields, as the Python objects do.
- Each webhook and command handler is written twice:
  - a method that changes the store and the outbox in the order the source does;
  - a function that gives the same effect as a value (`Webhook.Handle`, `Commands.Command`, `Legacy.Handle`).

  Each method's postcondition says its new state equals that function's result. The lemmas are stated about the functions.
- Everything the code gets from outside is a parameter:
  - the clock;
  - the language model;
  - the id the platform returns for a sent message;
  - `resolve_mentions`;
  - the bot's open id;
  - the MCP transport;
  - JSON parsing and printing.

## Behaviour of the code worth noting

- **Duplicate tool names.** `startup` writes `tool_map[tool.name] = client` for every tool of every client, in order. When two servers advertise the same name, the **last** one gets it (`Mcp.MergeRoutes`).
- **No reset before startup.** `startup` never clears the routing table first. The model merges into the existing table.
- **No de-duplication in the catalog.** `get_all_tools` emits one entry per (client, tool) pair, so a name that two servers advertise appears twice (`Mcp.CatalogEntry`).
- **No tool-calling loop.** No code in these files calls `MCPManager.call_tool`, so the manager is modelled on its own.
- **A missing `default` prompt always fails in `api/app.py`.** `config.PROMPTS.get(role, config.PROMPTS['default'])` evaluates `PROMPTS['default']` first. So a missing `default` prompt raises even when the chat's role exists (`Webhook.Request`).
- **History and role switches.** `api/app.py` does not trim the request or the history. `lark_callback.py` trims only the request. Its role switch keeps the history, while `handler.py` clears it (`Legacy.RoleSwitchKeepsHistory`).

## Model

| member | source | states |
|---|---|---|
| Text.Strip | api/app.py:190 | `.strip()`: the result is no longer than the input, has no whitespace at either end, and is empty exactly when the input is all whitespace |
| Text.StripTrims | api/app.py:190 | what `.strip()` removes is whitespace and nothing else: the result is a slice of the input, and everything before and after that slice is whitespace |
| Text.StripIdempotent | api/app.py:190 | stripping twice gives the same result as stripping once |
| Text.WordsEmpty | api/app.py:133 | `split()` gives no tokens exactly when the text is all whitespace |
| Text.FirstWord | api/app.py:133-135 | the first `split()` token is the leading run of non-space characters, and the remaining tokens are the tokens of the rest |
| Text.SplitJoinLines | api/services/mcp_service.py:144 | joining newline-free pieces with `"\n"` and splitting the result at newlines gives the pieces back |
| Schema.Normalize | api/services/mcp_service.py:52-71 | a non-dict value comes back as it is; a rewritten dict keeps all its keys; an object schema comes back with `additionalProperties: false`; an object schema whose `properties` is not a dict makes the rewrite fail |
| Schema.NormalizeShape | api/services/mcp_service.py:57-71 | one level of the rewrite: an object schema gains `additionalProperties: false`; `properties` (object schemas), `items` (array schemas) and combinator lists are rewritten; every other key keeps its value; a non-dict `properties` of an object schema makes it fail |
| Schema.NormalizeProperties | api/services/mcp_service.py:62-64 | `properties` of an accepted object schema is a dict, rewritten value by value under the same keys |
| Schema.NormalizeCombinators | api/services/mcp_service.py:68-70 | a list under `oneOf`, `anyOf` or `allOf` keeps its length and is rewritten element by element |
| Schema.NormalizeClosed | api/services/mcp_service.py:52-71 | every object schema reachable in the output through `properties`, `items` and combinator lists has `additionalProperties: false` |
| Schema.NormalizeIdempotent | api/services/mcp_service.py:52-71 | rewriting an already rewritten schema changes nothing |
| Schema.FixpointIffClosed | api/services/mcp_service.py:52-71 | the rewrite leaves a schema unchanged exactly when the schema is already closed |
| Schema.NormalizeDefined | api/services/mcp_service.py:57-64 | the rewrite raises exactly on schemas where some object schema has a `properties` value that is not a dict |
| Mcp.Client.constructor | api/services/mcp_service.py:17-22 | a new client keeps its URL and token and starts with no session and no tools |
| Mcp.Client.Connect | api/services/mcp_service.py:24-50 | connecting never fails outward; the tool list is replaced only when listing succeeded; a session exists once the handshake got that far |
| Mcp.Client.CallTool | api/services/mcp_service.py:73-89 | the call fails without a session; it fails naming the tool and the server for a tool this server did not advertise; otherwise it returns the remote result or the remote failure |
| Mcp.ConnectAll | api/services/mcp_service.py:104-107 | one fresh client per configured server, in order, carrying that server's URL, token, session state and tools |
| Mcp.AddAll | api/services/mcp_service.py:110-113 | after registering one client's tools, their names route to that client and every other name keeps its route |
| Mcp.MergeRoutes | api/services/mcp_service.py:109-113 | routed names are the earlier ones plus every advertised name; an advertised name routes to the last client that advertises it; any other name keeps its earlier client |
| Mcp.Manager.constructor | api/services/mcp_service.py:92-95 | a new manager has no clients and an empty routing table |
| Mcp.Manager.Startup | api/services/mcp_service.py:97-113 | with no servers nothing changes; otherwise the clients are fresh and connected, one per server, and the routing table is the merge of the old table with every advertised tool; afterwards every routed name belongs to a connected client that advertises it |
| Mcp.Manager.Install | api/services/mcp_service.py:104-113 | the manager keeps exactly the connected clients, and its routing table becomes the merge of the old table with their tools |
| Mcp.Manager.RegisterTools | api/services/mcp_service.py:109-113 | the nested registration loop produces exactly the merged routing table |
| Mcp.Describe | api/services/mcp_service.py:119-131 | one declaration per tool, in order, with the tool's name, its description and its rewritten schema; no declarations at all when one rewrite raises |
| Mcp.DescribeMore | api/services/mcp_service.py:120-129 | the loop over one client's tools extends the declarations built so far exactly as describing every tool seen so far would, so it fails as soon as one rewrite raises |
| Mcp.FlattenAt | api/services/mcp_service.py:120-121 | tool `j` of client `i` lands at position "tools of the earlier clients + j" in the flat list, and the flat list holds every tool of every client |
| Mcp.CatalogEntry | api/services/mcp_service.py:118-131 | the catalog has one entry per (client, tool) pair, without de-duplication; each entry carries the tool's name and description and a closed, rewritten schema |
| Mcp.Manager.GetAllTools | api/services/mcp_service.py:118-131 | the nested loop returns exactly the catalog of the clients' tool lists |
| Mcp.TextsOf | api/services/mcp_service.py:144 | only blocks with a text contribute, each text comes from some block, and the list is empty exactly when no block has text |
| Mcp.TextsOfConcat | api/services/mcp_service.py:144 | the texts of two runs of blocks are the texts of the first run followed by those of the second |
| Mcp.TextsOfBlock | api/services/mcp_service.py:144 | a block with text contributes exactly that text, and a block without text contributes nothing |
| Mcp.Render | api/services/mcp_service.py:142-148 | blocks that carry no text render as the empty reply; a single block with text renders as exactly that text |
| Mcp.RenderBlocksRecoverable | api/services/mcp_service.py:142-145 | when the block texts contain no newline, the rendered reply splits back into exactly those texts |
| Mcp.NotFoundMessage | api/services/mcp_service.py:134-135 | the not-found reply embeds the tool name at a fixed position |
| Mcp.InvalidJsonMessage | api/services/mcp_service.py:149-152 | the invalid-arguments reply embeds the tool name at a fixed position |
| Mcp.UnexpectedErrorMessage | api/services/mcp_service.py:153-155 | the unexpected-error reply embeds the tool name at a fixed position |
| Mcp.ErrorKindsDistinct | api/services/mcp_service.py:133-155 | no not-found, invalid-arguments or unexpected-error reply equals a reply of another kind, whatever the tool names |
| Mcp.ErrorMessagesInjective | api/services/mcp_service.py:133-155 | each error reply determines the tool name it was made for |
| Mcp.Manager.CallTool | api/services/mcp_service.py:133-155 | never raises: an unknown name is reported before parsing; unparsable arguments are reported next; any client or remote failure becomes the unexpected-error reply; a result is rendered as text; with a consistent routing table, only the remote outcome decides |
| Services.Store.SetChatSetting | api/services/redis_service.py:36-39 | one field of one chat's settings is set; all other state is unchanged |
| Services.Store.ClearUserData | api/services/redis_service.py:57-60 | the chat's history and settings are deleted; nothing else changes |
| Services.Store.ClearChatContext | api/services/redis_service.py:62-64 | the chat's history is deleted; nothing else changes |
| Services.Store.SaveChatContext | api/services/redis_service.py:28-30 | the chat's history is replaced; nothing else changes |
| Services.Store.MarkProcessed | api/services/redis_service.py:45-47 | the id joins the processed ids; nothing else changes |
| Services.Outbox.Send | api/services/lark_service.py:26-43 | one new message to the chat is recorded |
| Services.Outbox.Patch | api/services/lark_service.py:45-59 | one edit of an earlier message is recorded |
| Commands.ClearChat | api/commands/handler.py:18-20 | after `/clear`, the chat's settings and history are empty, and other chats and the processed ids are unchanged |
| Commands.SetSetting | api/commands/handler.py:26-28 | exactly one settings field of the chat changes; its history is kept, or dropped when asked; other chats are unchanged |
| Commands.Command | api/commands/handler.py:5-42 | a command never touches other chats or the processed ids; `/help`, the argument-less queries, an unknown role and an unknown command change nothing |
| Commands.ClearForgets | api/commands/handler.py:18-20 | `/clear` leaves the chat without settings or history and replies that it did |
| Commands.ModelQuery | api/commands/handler.py:22-25 | `/model` without an argument reports the chat's model, or the configured default |
| Commands.ModelSwitch | api/commands/handler.py:26-28 | `/model m` stores the stripped `m`, keeps the chat's other settings and its history, and confirms |
| Commands.RoleSwitchClearsHistory | api/commands/handler.py:34-40 | switching to a known role stores it and empties the chat's history |
| Commands.RoleStaysKnown | api/commands/handler.py:29-40 | no command can leave a stored role that the configuration does not know |
| Commands.HandleCommand | api/commands/handler.py:5-42 | the store moves as `Commands.Command` says, and exactly one message is sent to the chat the command came from |
| Events.SplitCommand | api/app.py:132-135 | the command is the first whitespace-separated token, starts with `/`, and the arguments are the tokens after it |
| ReplyText.FindFirst | api/app.py:186 | the position found for the closing tag is its first occurrence at or after the start position, and none is found only when there is none |
| ReplyText.StripThink | api/app.py:186 | the think pass never lengthens the text |
| ReplyText.StripThinkNoTag | api/app.py:186 | text without `<think>` is unchanged by the think pass |
| ReplyText.StripThinkNoClose | api/app.py:186 | text with no `</think>` anywhere is unchanged by the think pass, opening tags and all |
| ReplyText.StripThinkOpenUnclosed | api/app.py:186 | when no `</think>` follows the first `<think>`, the think pass changes nothing, even if a `</think>` comes before that opening tag |
| ReplyText.StripThinkSpan | api/app.py:186 | the first `<think>` span is removed up to the first `</think>` after it, and the text before it is kept |
| ReplyText.StripThinkFrom | api/app.py:186 | with the first `<think>` at position i and the first `</think>` after it at j, the text before i is kept and the cleaning resumes right after that closing tag |
| ReplyText.ThinkSpanCanSurvive | api/app.py:186 | one pass can leave a complete `<think>…</think>` span: `<thi<think></think>nk>x</think>` cleans to `<think>x</think>` |
| ReplyText.StripAt | api/app.py:188 | the at pass never lengthens the text |
| ReplyText.StripAtNoTag | api/app.py:188 | text without `<at` is unchanged by the at pass |
| ReplyText.StripAtNoClose | api/app.py:188 | text with no `</at>` anywhere is unchanged by the at pass, opening tags and all |
| ReplyText.StripAtOpenUnclosed | api/app.py:188 | when no `</at>` follows the first `<at`, the at pass changes nothing, even if an `</at>` comes before that opening tag |
| ReplyText.StripAtNewline | api/app.py:188 | when a newline comes between the first `<at` and the first `</at>` after it, no match starts there: the text up to and including that tag's `<` is kept and the cleaning goes on from the next character |
| ReplyText.StripAtSpan | api/app.py:188 | the first `<at…</at>` span that closes before a newline is removed, and the text before it is kept |
| ReplyText.StripAtFrom | api/app.py:188 | with the first `<at` at position i and the first `</at>` after it at j, and no newline between them, the text before i is kept and the cleaning resumes right after that closing tag |
| ReplyText.Sanitize | api/app.py:185-194 | the posted reply is never empty, has no whitespace at either end, and is the fallback sentence or no longer than the model's answer |
| ReplyText.SanitizeFallback | api/app.py:190-194 | the fallback is posted exactly when the cleaned answer is blank, or is literally the fallback sentence |
| ReplyText.SanitizePlain | api/app.py:185-194 | an answer without tags is only stripped |
| Webhook.Admission | api/app.py:94-116 | the first four gates stop an event exactly when it would not reach the marking of its id |
| Webhook.Screen | api/app.py:118-165 | after marking, a message is stale, unreadable, a command, empty, unanswerable or a conversation turn; commands start with `/`, and turns have non-empty text that does not |
| Webhook.Route | api/app.py:132-165 | on the resolved text, the command check comes first, then the empty check, then the group-mention checks |
| Webhook.Gate | api/app.py:94-165 | a challenge is echoed first; a wrong token is refused next; a command or a turn belongs to the event's chat; a turn has non-empty text that does not start with `/` |
| Webhook.MarkedIffPastDuplicateGate | api/app.py:113-165 | an id is marked exactly when the event gets past the duplicate gate, so later-dropped messages are still marked |
| Webhook.CommandIgnoresMentions | api/app.py:132-165 | a fresh command runs in a group chat whether or not the bot is mentioned |
| Webhook.ConverseIff | api/app.py:118-165 | a conversation turn happens exactly when the message is fresh, readable, non-empty, not a command, and in a group chat mentions the bot's open id |
| Webhook.Request | api/app.py:174-180 | the request exists exactly when a `default` prompt exists; it is the system prompt, then the whole history, then the user's text |
| Webhook.RequestChoices | api/app.py:174-177 | an empty or missing stored model or role falls back to the configured default; an unknown role gets the default prompt |
| Webhook.Ask | api/app.py:173-194 | an exchange succeeds exactly when the request exists and the model answers; the answer is then cleaned |
| Webhook.AskAsWritten | api/app.py:60-62 | as written, the exchange fails for every request and every model outcome, because line 183 passes a string where a coroutine is required |
| Webhook.AnswerLostAsWritten | api/app.py:183 | for every model that answers the request, with a `default` prompt, the intended exchange is answered but the exchange as written fails |
| Webhook.TurnAsWrittenFails | api/app.py:183-230 | as written, every turn keeps the store as it was, delivers the processing-error notice and answers 500 |
| Webhook.Turnaround | api/app.py:167-230 | a turn changes only this chat's history, and sends the placeholder (when enabled) and exactly one final message |
| Webhook.TurnaroundHistory | api/app.py:196-230 | an answered turn appends the user's text and then the cleaned answer to the history, posts that answer and returns 200; a failed turn keeps the history, posts the error notice and returns 500 |
| Webhook.TurnaroundPlaceholder | api/app.py:167-199 | with send-and-replace, the placeholder goes first and the final message patches it when its id came back, or is sent anew otherwise |
| Webhook.CommandEffect | api/app.py:132-136 | a command sends one message to its own chat and does not touch the processed ids |
| Webhook.Outcome | api/app.py:94-230 | no outcome touches the processed ids; a dropped event changes nothing and sends nothing; a command sends one message to its chat; a turn keeps the settings and other chats' histories and sends at least one message |
| Webhook.Mark | api/app.py:113-116 | marking adds exactly the event's id, and only when the event passes the duplicate gate |
| Webhook.Handle | api/app.py:84-230 | an admitted event's id joins the processed ids; an event stopped before the duplicate gate changes nothing and sends nothing |
| Webhook.RejectedEventsChangeNothing | api/app.py:94-115 | an event stopped before the duplicate gate changes no state and sends nothing; it is answered by the first check it fails, in the order challenge, token, bot or empty message, duplicate id |
| Webhook.HandleAdmitted | api/app.py:113-118 | an event that gets past the duplicate gate has its id marked before any later check runs |
| Webhook.Deliver | api/app.py:196-199 | the placeholder is patched when there is one, or a new message is sent |
| Webhook.Conclusion | api/app.py:192-230 | the end of a turn keeps the settings, the processed ids and other chats' histories, and delivers exactly one message: the answer, or the error notice when the exchange failed |
| Webhook.Conclude | api/app.py:192-230 | the end of a turn updates the store and the outbox as `Webhook.Conclusion` says |
| Webhook.Talk | api/app.py:167-230 | a conversation turn updates the store and the outbox as `Webhook.Turnaround` says |
| Webhook.DoCommand | api/app.py:132-136 | running a command updates the store and the outbox as `Webhook.CommandEffect` says |
| Webhook.Engage | api/app.py:138-165 | non-command text goes through the empty and mention gates and then into a turn, as `Webhook.Route` decides |
| Webhook.Respond | api/app.py:132-165 | the resolved text is handled as `Webhook.Route` decides |
| Webhook.Proceed | api/app.py:118-165 | everything after marking happens as `Webhook.Screen` decides |
| Webhook.Callback | api/app.py:84-230 | the whole callback changes the store, sends messages and answers exactly as `Webhook.Handle` says |
| Legacy.Trim | api/lark_callback.py:144-147 | the trimmed request has at most 41 messages and is a suffix of the input; it is the input itself when that is short enough, and exactly 41 messages otherwise |
| Legacy.TrimRequest | api/lark_callback.py:144-147 | trimming keeps the user's message last; the system prompt survives while the request fits, and once the history has grown past the limit no system message remains |
| Legacy.Command | api/lark_callback.py:166-209 | only `/clear` touches the history, and it empties the chat's settings and history; `/model m` sets exactly the chat's `model` to the stripped `m`; a known role sets exactly the chat's `role`; `/help`, unknown commands, an unknown role and the argument-less queries change nothing; other chats and the processed ids are never touched |
| Legacy.RoleSwitchKeepsHistory | api/lark_callback.py:195-206 | a role switch stores the same settings as `handler.py` but keeps the chat's history, which `handler.py` clears |
| Legacy.HandleCommand | api/lark_callback.py:166-209 | the store moves as `Legacy.Command` says, and exactly one message is sent to the chat |
| Legacy.Gate | api/lark_callback.py:212-248 | the first four checks stop an event exactly when it would not be marked; a conversation turn has non-empty, non-command text |
| Legacy.ConverseIff | api/lark_callback.py:238-250 | a turn happens exactly for a new text message whose stripped text is non-empty and not a command; there is no mention check |
| Legacy.Screen | api/lark_callback.py:238-250 | after marking, a non-text message gets nothing; an unreadable text gets an error; a turn belongs to the message's chat and has non-empty stripped text that is not a command |
| Legacy.Classify | api/lark_callback.py:241-250 | stripped text starting with `/` is a command whose name starts with `/`; any other non-empty text is a turn with exactly that text; empty text gets nothing |
| Legacy.Reaction | api/lark_callback.py:261-291 | the model's answer is used exactly when a `default` prompt exists and the model answers the trimmed request; otherwise the turn fails |
| Legacy.Request | api/lark_callback.py:262-272 | the request exists exactly when a `default` prompt exists; it uses the stored model as it is; it has at most 41 messages and ends with the user's text |
| Legacy.RequestChoices | api/lark_callback.py:262-272 | the prompt is the stored role's, or the `default` prompt when the role is unset or unknown; the history sits between the prompt and the user's text; once they no longer fit in 41 messages, the prompt and the oldest history are dropped first |
| Legacy.Turnaround | api/lark_callback.py:250-296 | the placeholder is always sent first, then one more message; settings, processed ids and other chats' histories are untouched; the store changes only when the placeholder was sent and the model answered; the answer is `ok`, or an error string when the placeholder could not be sent |
| Legacy.Conclusion | api/lark_callback.py:282-296 | the end of a turn patches the placeholder once and answers `ok`; a failed call keeps the store and posts the error notice; an answer is posted stripped and appended after the user's text to this chat's history only |
| Legacy.Appended | api/lark_callback.py:286-288 | appending to the history and saving it changes only this chat's history, which grows by exactly the appended turns; settings and processed ids stay |
| Legacy.HistoryGrowsUntrimmed | api/lark_callback.py:267-288 | an answered turn adds exactly the user's text and the stripped answer to the stored history, however long that history already is, and patches the placeholder with the answer |
| Legacy.Outcome | api/lark_callback.py:214-296 | no outcome touches the processed ids; a dropped event changes nothing and sends nothing; a command sends one message to its chat; a turn keeps the settings, sends two messages and answers 200 |
| Legacy.Conclude | api/lark_callback.py:282-294 | the end of a turn updates the store and the outbox as `Legacy.Conclusion` says |
| Legacy.Talk | api/lark_callback.py:250-294 | a conversation turn updates the store and the outbox as `Legacy.Turnaround` says |
| Legacy.CommandEffect | api/lark_callback.py:242-246 | a command sends exactly one message, to its own chat, and does not touch the processed ids |
| Legacy.DoCommand | api/lark_callback.py:242-246 | running a command updates the store and the outbox as its outcome says |
| Legacy.Act | api/lark_callback.py:240-250 | stripped text is handled as a command, a turn, or nothing, as `Legacy.Classify` decides |
| Legacy.Proceed | api/lark_callback.py:238-250 | everything after marking happens as `Legacy.Screen` decides |
| Legacy.HandleRejected | api/lark_callback.py:214-235 | an event stopped before marking changes no state and sends nothing; it is answered by the first check it fails, in the order challenge, token, bot or empty message, duplicate id |
| Legacy.HandleAdmitted | api/lark_callback.py:233-238 | an event that gets past the duplicate check has its id marked before its content is read |
| Legacy.Callback | api/lark_callback.py:211-296 | the whole callback changes the store, sends messages and answers exactly as `Legacy.Handle` says |
| Legacy.Handle | api/lark_callback.py:211-296 | an admitted event's id joins the processed ids; an event stopped before marking changes nothing and sends nothing |

## Findings

| source | as written | input that shows it | evidently intended | confidence | as-written member | corrected member |
|---|---|---|---|---|---|---|
| api/app.py:183 | `run_async_from_sync(openai_service.get_ai_response(messages, model))`: `get_ai_response` is a plain function, so its string reply goes to `asyncio.run_coroutine_threadsafe` (app.py:60-62), which raises `TypeError`; every turn ends in the error branch | any conversation turn with a `default` prompt where the model answers, e.g. the answer `"hello"` | the answer is cleaned, posted and saved after the user's text, and the callback answers 200 | high; not executed | Webhook.AskAsWritten, Webhook.AnswerLostAsWritten, Webhook.TurnAsWrittenFails | Webhook.Ask, Webhook.TurnaroundHistory |

## Left out

- Webhook.TurnaroundHistory: states the turn as evidently intended, with the answer saved and 200 returned. As written, app.py:183 never gets there: see "## Findings" and `Webhook.TurnAsWrittenFails`.
- `Schema.Json` has no floating-point numbers. JSON floats in tool schemas pass through the rewrite unchanged, as integers and strings do.

- ReplyText.Sanitize: does not promise that no `<think>…</think>` span remains in the posted reply. The source makes a single regex pass, and `ReplyText.ThinkSpanCanSurvive` shows a span that survives it.
- Webhook.IsStale: compares ages in whole milliseconds. The source compares float seconds from `time.time()`; the clock is a parameter, `nowMs`.
- Python's `str.isspace` and `str.split()` treat Unicode spaces as whitespace. `Text.IsSpace` knows only the ASCII ones.
- The HTTP layer is not modelled: Flask, request JSON parsing, the MCP streamable-HTTP transport and the Lark REST calls. Events are given as already parsed values.
- Delivery failures are not modelled beyond the message id the platform returns. That id is a parameter; `None` stands for a failed send and for an empty id.
- Lark access-token fetching and caching are not modelled.
- The service is assumed to be reachable, and its TTLs are not modelled. When Redis is unreachable every store call is a no-op or returns empty. The TTLs are 2 hours for history, 7 days for settings and 1 day for processed ids. Exceptions raised by the store after a reply was delivered are not modelled.
- `asyncio` concurrency is not modelled. `startup` connects the clients concurrently; the model connects them one after the other. Each connection touches only its own client.
- The background event loop and `MCPManager.shutdown` are not modelled; shutdown only closes transports.
- A connection attempt is summarised by its outcome: unreachable, failed after the session opened, or tools listed. Timeouts are not modelled.
- Prompt loading from files is not modelled; the prompts are a map in the configuration. The same goes for environment variables, logging, `print`, `DEBUG_MODE` output, the debug suffix of error messages, and the sampling parameters (temperature, top_p, max tokens).
- The text of replies is not modelled. Help texts and notices are the `Services.Notice` datatype, and the exception type named in the error notice is left out.
- `lark_service.resolve_mentions` and `lark_service.get_bot_open_id` are not defined in api/services/lark_service.py. They are parameters (`resolve`, `botOpenId`), and the caching of the bot id in `config.LARK_BOT_OPEN_ID` is not modelled.
- Some unreadable inputs are not modelled:
  - a missing `chat_id`;
  - a non-numeric `create_time`;
  - a request without a JSON body.

  A `content` that does not decode to a string `text` is modelled as a 500 answer.
- `lark_callback.py` sends the user's text as a structured content list. It is modelled as the plain text.
- JSON text is not modelled. `json.loads` of tool arguments and `json.dumps` of tool results are the parameters `parse` and `dumps`.
- `str(item.text)` of a non-string block text is not modelled.
- In `ensure_no_additional_properties`, the shallow copy shares the `properties` dict with the caller's schema, so the source also rewrites the caller's dict in place. The model returns new values and does not capture that aliasing.
