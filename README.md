# FlowGPT chat bot core, in Dafny

This project models a multi-platform chat bot. One shared chat engine keeps a
conversation table: for each conversation id, a message history and a system
prompt. The engine sends each conversation to an OpenAI-style chat-completion
API, either buffered or streamed. It can load a system prompt from the FlowGPT
prompt catalog. Four platform adapters (Discord, Telegram, LINE, Slack) turn
platform events into engine calls and reply messages.

The modules follow the program's structure:

- `Conversations` (conversation.dfy): `Message`, and the `Conversation` class
  whose methods update its history in place. `Serialize` is the
  `to_openai_format` specification.
- `Catalog` (catalog.dfy): `FlowGPTClient`. This covers the search payload, the
  tolerant reply extraction and the by-id scan `GetPromptById`.
- `Engine` (engine.dfy): the conversation table as a value, `Table`. Every
  `ChatClient` operation is a function on it: `Opened`, `WithSystemPrompt`,
  `Cleared`, `Deleted`, `ChatStep` and `StreamStep`. The file also holds the
  lemmas relating these operations.
- `Client` (chat_client.dfy): the `ChatClient` class. Its field is a map from id
  to `Conversation` objects. Each method is proved to move the abstract table
  `Table()` exactly as the matching `Engine` function says.
- `Replies` (replies.dfy): reply shaping shared by the adapters. This covers
  cutting into fixed-size slices, previews, the first-five listing, "set the
  prompt, then clear", and the shape of conversation ids.
- `Discord`, `Telegram`, `Line`, `Slack`: each event handler is a function from
  its input and the table to an `Outcome`: the new table plus the messages
  sent, in order. Where the source builds a reply in a loop, a method with that
  loop is proved equal to the function.
- `Text` and `Wrappers`: the Python string operations the code relies on, and
  `Option`. The string operations are `strip`, `split(maxsplit=1)`, ASCII
  `lower`, `str(int)`, `replace` and `" ".join`.

The network is an input. The chat-completion call is an `Upstream` value:
- `Answered`: the request succeeded;
- `Rejected`: an error status, with what its body yields;
- `Failed`: any other exception.

A stream is a `StreamBody`: the lines `aiter_lines` delivers, plus what it
raises after the last line. It comes with `decode`, the outcome of
`json.loads` and of the delta lookup on one payload. The catalog is a function
`catalog` from the filter object sent to the reply received.

Two behaviours of the code worth noting:
- **Mis-shaped stream chunk.** A chunk that is valid JSON but has no
  `choices[0]` is not skipped. The lookup raises, the generator's outer handler
  yields one `Error: ...` fragment, and no assistant message is stored
  (`Engine.ScanStopsAtMalformed`, `Engine.StreamStep`). Only text that is not JSON is
  skipped.
- **Empty prompt override.** An empty override counts as none: a new
  conversation then gets the default prompt (`Engine.InitialPrompt`). The code
  writes `system_prompt or default`.

## Model

| member | source | states |
|---|---|---|
| Conversations.Serialize | src/core/chat_client.py:30-36 | the serialisation has one entry per message plus exactly one for a non-empty system prompt; that system entry comes first; messages follow in stored order; no other entry has the system role |
| Conversations.SerializeAppend | src/core/chat_client.py:27-36 | appending a message appends exactly its entry to the serialisation |
| Conversations.SerializeEndsWithLast | src/core/chat_client.py:34-35 | the last entry is the last stored message |
| Conversations.Conversation.constructor | src/core/chat_client.py:22-25 | a new conversation has no messages and the given prompt |
| Conversations.Conversation.AddMessage | src/core/chat_client.py:27-28 | appends one message in place; the prompt is kept |
| Conversations.Conversation.ToOpenAIFormat | src/core/chat_client.py:30-36 | the loop builds exactly `Serialize` of the current state |
| Conversations.Conversation.Clear | src/core/chat_client.py:38-39 | the history becomes empty; the system prompt is kept |
| Catalog.SearchPayload | src/core/chat_client.py:66-82 | an empty query is sent as null; `tag`, `sort` and `language` pass through; the meta markers are "undefined" for exactly the null fields |
| Catalog.SearchPrompts | src/core/chat_client.py:84-94 | never fails; returns the catalog's list unchanged when the reply carries one at `result.data.json`, and `[]` for any failure or missing level |
| Catalog.FirstWithId | src/core/chat_client.py:99-101 | the position of the first entry whose id is exactly the one sought; no earlier entry has it |
| Catalog.FindById | src/core/chat_client.py:96-102 | absent exactly when no result has the id; otherwise the first result with that exact id |
| Catalog.GetPromptById | src/core/chat_client.py:96-102 | the scan over the search for the id returns `FindById` of those results |
| Catalog.SystemText | src/core/chat_client.py:239 | `initPrompt` when it is non-empty, else `systemMessage` as it is (possibly absent) |
| Engine.Opened | src/core/chat_client.py:126-136 | an existing conversation is kept as it is and the override is ignored; a new one is empty with the override, or the default when the override is absent or empty; no other entry changes |
| Engine.WithSystemPrompt | src/core/chat_client.py:138-141 | creates the conversation if absent; replaces only its prompt; keeps its history and every other entry |
| Engine.Cleared | src/core/chat_client.py:225-228 | empties the history and keeps the prompt; no-op for an unknown id; other entries unchanged |
| Engine.Deleted | src/core/chat_client.py:230-233 | removes exactly that key; other entries unchanged |
| Engine.WithUserMessage | src/core/chat_client.py:150-151 | opens the conversation and appends the user message; only that entry changes |
| Engine.RequestFor | src/core/chat_client.py:154-162 | the request carries the configured model and the stream flag; its last entry is the new user message |
| Engine.ApiError | src/core/chat_client.py:170-177 | an error status always gives a text starting `API error: ` |
| Engine.ChatStep | src/core/chat_client.py:143-179 | the user message is appended whatever the outcome; on an answer the reply is appended and returned; on an error status the text starts `API error: `, on other failures `Error: `, and no assistant message is stored; only this id's entry changes |
| Engine.ScanLines | src/core/chat_client.py:206-219 | no yielded fragment is empty |
| Engine.StreamStep | src/core/chat_client.py:181-223 | same setup and request as `chat`, with `stream` set; after a normal end the fragments are yielded and their concatenation is stored as one assistant message; after an error the fragments so far plus one `Error: ` fragment are yielded and nothing is stored |
| Engine.SameRequestBothWays | src/core/chat_client.py:194-203 | the buffered and the streaming path send identical message lists |
| Engine.ScanSkipsInert | src/core/chat_client.py:207-219 | a line that is not `data: `, a payload that is not JSON, or an empty delta line can be dropped from anywhere without changing the result |
| Engine.ScanStopsAtDone | src/core/chat_client.py:209-210 | nothing after `data: [DONE]` is read: neither later lines nor a later iterator failure |
| Engine.ScanAfterDeltas | src/core/chat_client.py:206-217 | `data: ` lines of delta payloads in front of any further lines yield their non-empty texts, in order, then what the further lines yield, with the error those end with |
| Engine.ScanOfDeltas | src/core/chat_client.py:206-217 | `data: ` lines whose payloads each decode to a delta text yield exactly the non-empty texts, in order; the stream ends with the line iterator's failure if it raised one, and with no error otherwise |
| Engine.ScanStopsAtMalformed | src/core/chat_client.py:206-223 | a mis-shaped chunk after delta chunks ends the stream with its error: the texts before it are yielded, and no later line or iterator failure is read |
| Engine.ChatAfterClearKeepsPrompt | src/core/chat_client.py:225-228 | the chat after a clear sends the kept prompt and only the new message |
| Engine.ChatAfterDeleteIsFresh | src/core/chat_client.py:230-233 | the chat after a delete starts from the initial prompt and sends only the new message |
| Engine.AnsweredChatIsAnswer | src/core/chat_client.py:150-169 | an answered chat on a known id appends the (user, assistant) pair and nothing else |
| Engine.ConverseHistory | src/core/chat_client.py:150-169 | after a run of answered chats the history is the old one followed by every pair in order; the prompt is kept |
| Engine.NextRequestCarriesHistory | src/core/chat_client.py:150-162 | the next request after such a run carries every earlier pair in order, then the new user message |
| Engine.TerseScenario | src/core/chat_client.py:138-169 | a prompt set on a new id followed by one answered chat gives request [system, user] and history [user, assistant] |
| Client.ChatClient.constructor | src/core/chat_client.py:111-115 | starts with an empty table and the given settings |
| Client.ChatClient.GetOrCreateConversation | src/core/chat_client.py:126-136 | moves the table as `Opened`; returns the stored object for a known id and a fresh stored one otherwise; no other object changes |
| Client.ChatClient.SetSystemPrompt | src/core/chat_client.py:138-141 | moves the table as `WithSystemPrompt` |
| Client.ChatClient.Begin | src/core/chat_client.py:150-162 | moves the table as `WithUserMessage` and returns `RequestFor` of the old table |
| Client.ChatClient.Append | src/core/chat_client.py:151 | appends one message to that id's conversation only; no other entry and no key changes |
| Client.ChatClient.Chat | src/core/chat_client.py:143-179 | table, reply and request are exactly `ChatStep`'s |
| Client.ChatClient.ReadStream | src/core/chat_client.py:206-219 | the loop over the lines yields what `ScanLines` says; `full_response` is the concatenation of what was yielded |
| Client.ChatClient.ChatStream | src/core/chat_client.py:181-223 | table, yielded fragments and request are exactly `StreamStep`'s |
| Client.ChatClient.ClearConversation | src/core/chat_client.py:225-228 | moves the table as `Cleared` |
| Client.ChatClient.DeleteConversation | src/core/chat_client.py:230-233 | moves the table as `Deleted` |
| Client.ChatClient.LoadFlowGPTPrompt | src/core/chat_client.py:235-240 | any text it returns is the system text of a search result whose id is exactly the one asked for |
| Client.ChatClient.SearchFlowGPTPrompts | src/core/chat_client.py:242-244 | a search on the query alone, in English, with no tag or sort |
| Text.Strip | src/services/slack/bot.py:44 | the result is a piece of the input with only whitespace before and after it; it is empty exactly when the input is all whitespace, and otherwise starts and ends with a non-space |
| Text.SplitOnce | src/services/line/bot.py:86 | no part exactly when the text is all whitespace; the first part is the first word; there is a second part exactly when something other than whitespace follows it, and it is everything from the next non-space to the end |
| Text.TakeWordOfWord | src/services/line/bot.py:86 | a word without whitespace is taken whole |
| Text.SplitOnceAfterWord | src/services/line/bot.py:86 | a word followed by whitespace or nothing splits into that word and, unless only whitespace follows, the rest from its first non-space character |
| Text.RemoveAll | src/services/discord/bot.py:229 | the result is no longer than the input |
| Text.RemoveAllAbsent | src/services/discord/bot.py:229 | a text in which the pattern does not occur is unchanged |
| Text.RemoveAllLeading | src/services/discord/bot.py:229 | an occurrence at the front is removed and the rest is treated on its own |
| Text.RemoveAllKeeps | src/services/discord/bot.py:229 | a character that cannot start an occurrence is kept in front of the rest's result |
| Text.ParseNatToString | src/services/telegram/bot.py:35 | the decimal text of a number reads back as that number |
| Text.IntToStringInjective | src/services/telegram/bot.py:35 | different integers have different decimal texts |
| Replies.SlicesShape | src/services/discord/bot.py:76 | the slices concatenate to the reply; none is empty or longer than the limit; all but the last have exactly the limit |
| Replies.SliceAt | src/services/telegram/bot.py:162-163 | slice `i` is exactly the text from `i*n`, cut to `n` characters |
| Replies.Chunked | src/services/discord/bot.py:75-81 | a reply within the limit is sent once unchanged; a longer one as two or more slices that together give back the reply, each within the limit, all but the last full |
| Replies.Preview | src/services/discord/bot.py:106 | a short text is unchanged; a long one is its first `n` characters and `...` |
| Replies.PreviewSpellingsAgree | src/services/telegram/bot.py:93 | the Telegram spelling of the preview gives the same text |
| Replies.Enumerate | src/services/discord/bot.py:129-132 | one entry per prompt, in order, the numbers running on consecutively from the first |
| Replies.Listing | src/services/discord/bot.py:129-132 | at most the first five results, in order, numbered from 1, each description cut |
| Replies.RenderedAppend | src/services/telegram/bot.py:115-119 | showing one more entry appends exactly its text |
| Replies.RenderedPrefixStep | src/services/line/bot.py:139-144 | after the header, the text of the first i + 1 listed entries is the text of the first i followed by entry i |
| Replies.BuildListing | src/services/line/bot.py:139-146 | the `response +=` loop gives the header, every entry's text in order, then the footer (Telegram's search loop at src/services/telegram/bot.py:114-121 is the same with its own texts) |
| Replies.SetThenClear | src/services/discord/bot.py:103-104 | afterwards the conversation has the new prompt and no history, whether or not it existed; other entries unchanged |
| Replies.PairIdInjective | src/services/discord/bot.py:44 | when the first part holds no `_`, the id determines both parts |
| Discord.ConversationIdInjective | src/services/discord/bot.py:36-44 | different (channel, user) pairs never share a conversation |
| Discord.Delivered | src/services/discord/bot.py:75-81 | the first slice goes on the given route and every later one to the channel; the texts are `Chunked` of the reply |
| Discord.SendReply | src/services/discord/bot.py:75-79 | the sending loop sends exactly `Delivered` |
| Discord.ChatCommand | src/services/discord/bot.py:66-86 | one chat turn; the table is `ChatStep`'s; the reply is delivered on the follow-up |
| Discord.ClearCommand | src/services/discord/bot.py:89-96 | clears the caller's history; one private confirmation |
| Discord.PromptCommand | src/services/discord/bot.py:100-110 | the caller's conversation ends with that prompt and no history; the 100-character preview is confirmed privately |
| Discord.SearchEmbed | src/services/discord/bot.py:124-139 | one field per listed result, at most five, descriptions cut to 100 |
| Discord.SearchCommand | src/services/discord/bot.py:114-140 | the table is untouched; "No prompts found." exactly when the search is empty, else the embed |
| Discord.LoadCommand | src/services/discord/bot.py:144-162 | a non-empty loaded prompt is set and the history cleared, with a 200-character preview; otherwise nothing changes and the failure text is sent |
| Discord.HelpCommand | src/services/discord/bot.py:165-199 | one private help embed; the table is untouched |
| Discord.OnMessage | src/services/discord/bot.py:201-251 | bot authors are ignored; a direct message is chatted as is; a mention (not of everyone) is chatted with the bot's mentions removed, or greeted with no chat when nothing is left; anything else is ignored |
| Discord.BareMentionGreets | src/services/discord/bot.py:228-232 | a message that is only the bot's mention gets the greeting and leaves the table unchanged |
| Telegram.ConversationIdInjective | src/services/telegram/bot.py:31-35 | different chats or users never share a conversation; a missing user is user 0 |
| Telegram.StartCommand | src/services/telegram/bot.py:37-51 | the welcome text; the table is untouched |
| Telegram.HelpCommand | src/services/telegram/bot.py:53-69 | the help text; the table is untouched |
| Telegram.ClearCommand | src/services/telegram/bot.py:71-75 | clears the caller's history and confirms |
| Telegram.PromptCommand | src/services/telegram/bot.py:77-94 | without words: usage only, no change; otherwise the words joined by spaces become the prompt, the history is cleared, and the preview is shown |
| Telegram.SearchCommand | src/services/telegram/bot.py:96-122 | the table is untouched; without words: usage; otherwise a "Searching for" notice, then "No prompts found." or the listing |
| Telegram.LoadCommand | src/services/telegram/bot.py:124-149 | only the first word is the id; a non-empty loaded prompt is set and the history cleared, else nothing changes |
| Telegram.SendReply | src/services/telegram/bot.py:161-165 | the reply goes out as `Chunked` with limit 4096 |
| Telegram.SendSlices | src/services/telegram/bot.py:162-163 | the `range(0, len, 4096)` loop sends exactly the 4096-character slices |
| Telegram.HandleMessage | src/services/telegram/bot.py:151-170 | one chat turn; the reply is sent as its 4096-character chunks: together they give back the reply, a reply of at most 4096 goes whole, otherwise no send exceeds 4096 and all but the last are full |
| Line.ParseCommand | src/services/line/bot.py:86-88 | nothing when only whitespace follows `/` (the `IndexError` case); otherwise the lower-cased first word, and the arguments are the second part of the split, empty exactly when there is none |
| Line.BareCommand | src/services/line/bot.py:86-88 | `/` plus one word is that word, lower-cased, with no arguments |
| Line.CommandAfterWord | src/services/line/bot.py:86-88 | `/`, a word, then whitespace or nothing is the lower-cased word as the command, with the text from the next non-space character on as its arguments, or none when only whitespace follows |
| Line.CommandIsCaseInsensitive | src/services/line/bot.py:86-90 | a command word and its lower-cased spelling are the same command with the same arguments, whatever follows the word |
| Line.PromptCommand | src/services/line/bot.py:106-121 | without text the usage reply and no change; otherwise the text becomes the prompt, the history is cleared, and the first 100 characters are shown |
| Line.SearchCommand | src/services/line/bot.py:123-147 | the table is never changed; without a query the usage reply; otherwise a searching reply, then the listing or the no-results text pushed to the user |
| Line.LoadCommand | src/services/line/bot.py:149-174 | without an id the usage reply; otherwise a loading reply, then a usable prompt is set and the history cleared with the first 150 characters pushed, or the failure text pushed and nothing changed |
| Line.RunCommand | src/services/line/bot.py:90-180 | help replies with the help text and clear empties the history, both with one reply; prompt, search and load are their own functions; only clear, prompt and load can change the table; any other name is reported as unknown |
| Line.Truncated | src/services/line/bot.py:192-193 | at most 5000 characters; a longer reply keeps its first 4997 and ends in `...` |
| Line.HandleText | src/services/line/bot.py:64-76 | a stripped text starting with `/` is a command (a bare `/` does nothing); anything else is a chat turn whose reply is truncated |
| Line.HandleFollow | src/services/line/bot.py:203-220 | the welcome reply; the table is untouched |
| Line.HandleUnfollow | src/services/line/bot.py:222-227 | deletes exactly `line_user_<id>`; nothing is sent |
| Line.UnfollowKeepsOtherSources | src/services/line/bot.py:222-226 | the user's group or room conversations survive an unfollow |
| Slack.ConversationIdInjective | src/services/slack/bot.py:32-34 | different (channel, user) pairs never share a conversation when channel ids hold no `_` |
| Slack.SearchBlocksShape | src/services/slack/bot.py:141-172 | header, then at most five sections (descriptions cut to 100, numbered from 1), then the load hint |
| Slack.BuildBlocks | src/services/slack/bot.py:141-172 | the `blocks.append` loop builds exactly `SearchBlocks` |
| Slack.FlowgptCommand | src/services/slack/bot.py:44-67 | empty stripped text posts the command list and changes nothing; otherwise the first word, lower-cased, picks the subcommand and the rest is its argument |
| Slack.ChatSubcommand | src/services/slack/bot.py:69-93 | an empty message posts the usage and changes nothing; otherwise "Thinking" is posted, then the reply of one chat turn on the conversation of (channel, user) |
| Slack.PromptSubcommand | src/services/slack/bot.py:102-117 | an empty prompt posts the usage; otherwise the prompt is set, the history cleared, and the confirmation shows the first 100 characters |
| Slack.SearchSubcommand | src/services/slack/bot.py:119-178 | the table is never changed; an empty query posts the usage; otherwise a searching notice, then the no-results text or one block post built from the listing |
| Slack.LoadSubcommand | src/services/slack/bot.py:180-208 | an empty id posts the usage; otherwise a loading notice, then a usable loaded prompt is set and the history cleared, with the first 200 characters shown; a prompt that cannot be loaded changes nothing and says so |
| Slack.Subcommand | src/services/slack/bot.py:69-232 | each of chat, prompt, search and load is its branch function; clear empties the history; help posts the help text; every other subcommand leaves the table unchanged and is named back as unknown |
| Slack.WordRun | src/services/slack/bot.py:245 | the longest run of word characters at the start |
| Slack.MentionAt | src/services/slack/bot.py:245 | a match is `<@`, at least one word character, then `>` |
| Slack.MentionAtFindsMatch | src/services/slack/bot.py:245 | every `<@`, word characters, `>` at the start is found, with its full length |
| Slack.StripMentions | src/services/slack/bot.py:245 | the result is no longer than the input |
| Slack.StripMentionsKeepsPlainText | src/services/slack/bot.py:245 | a text without `<` is unchanged |
| Slack.StripLeadingMention | src/services/slack/bot.py:245 | a leading `<@id>` mention of any word id is removed |
| Slack.HandleMention | src/services/slack/bot.py:234-264 | the reply goes to the event's thread, or to the message; a mention with nothing else greets with no chat; otherwise one chat turn |
| Slack.BareMentionGreets | src/services/slack/bot.py:242-252 | before the bot's id is known, a bare mention of any word id greets and leaves the table unchanged |
| Slack.HandleDirectMessage | src/services/slack/bot.py:266-289 | events outside `im`, from a bot, or with blank text change nothing and send nothing; others are one chat turn on the stripped text |

## Left out

- Network I/O: the HTTP clients, `raise_for_status`, the line iterator and `close`/`aclose` are not modelled. Their outcomes are the `Upstream`, `StreamBody` and `catalog` inputs.
- JSON and URL encoding: `json.dumps`, `urllib.parse.quote` and `json.loads` are not modelled. The payload is modelled as the filter object, and decoding as the `decode` and `CatalogReply` inputs.
- Catalog.SearchPrompts: a reply whose `json` level is present but `null` is not represented. The source then returns `None` rather than `[]`, and `get_prompt_by_id` raises `TypeError` when it loops over it. A `null` at the `result` or `data` level makes the next `.get` raise inside the `try`, so it is `Unavailable` and gives `[]`, as modelled.
- Engine.Upstream: an answer whose `choices[0].message.content` is `null` is not represented. The source stores and returns `None` for it; `Answered` carries a string.
- Catalog.Prompt: only the text fields of a catalog entry are represented. A title or description that is a number or `null` is outside the model.
- Request: `max_tokens` and `temperature` are opaque pass-through values, so they are not part of `Request`.
- Text.Lower: only ASCII letters are lower-cased. Python's full Unicode case mapping is not modelled.
- Slack.StripMentions: `\w` is taken as ASCII letters, digits and `_`. Python also counts other Unicode word characters.
- Slack.MentionText: the known-bot-id pattern is treated as literal text. Slack user ids hold no regular-expression metacharacters.
- The "Sorry, I encountered an error" branches of every adapter: `chat` never raises, so they are reached only when a platform send fails, or when a `null` reply content (see `Engine.Upstream`) makes `chat` return `None`, so that `len(response)` raises in the Discord, Telegram and LINE adapters. Both are outside the model.
- Platform SDKs: embed colours, `inline` flags, reply tokens, typing indicators and `defer` are not modelled. Neither are command registration (`setup_hook`, `setup`), `on_ready`'s command sync, `process_commands`, or Telegram's splitting of `context.args`, which the model takes as given.
- Slack `start`: the Socket Mode connection and `auth_test` are not modelled. Their one effect on the decisions, the bot's user id, is the `botUserId` parameter of `Slack.HandleMention`, `None` before start.
- Concurrency: the asyncio tasks of the LINE handlers and races on one conversation id are not modelled. Calls are taken one at a time.
- Consumers that stop reading `chat_stream` early: the model runs the generator to its end.
- Logging and `print`.
- src/main.py, src/core/config.py and src/api/webhooks.py are not part of this model. They cover process start-up, environment configuration and the webhook HTTP server with its signature check.
