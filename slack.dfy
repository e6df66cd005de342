/**
 * The decisions of the Slack bot (src/services/slack/bot.py): the
 * `/flowgpt` slash command with its subcommands, the `app_mention` handler
 * and the direct-message handler, each as a function from its input and
 * the conversation table to the new table and the messages posted, in
 * order. The search results are posted as Slack blocks, built by a loop.
 */
module Slack {
  import opened Wrappers
  import opened Text
  import opened Conversations
  import opened Engine
  import opened Catalog
  import opened Replies

  const Prefix := "slack_"

  /** `_get_conversation_id(channel, user)`. */
  function ConversationId(channel: string, user: string): string {
    PairId(Prefix, channel, user)
  }

  /** Slack channel ids hold no `_`, so different (channel, user) pairs never
      share a conversation. */
  lemma ConversationIdInjective(c1: string, u1: string, c2: string, u2: string)
    requires NoUnderscore(c1) && NoUnderscore(c2)
    requires ConversationId(c1, u1) == ConversationId(c2, u2)
    ensures c1 == c2 && u1 == u2
  {
    PairIdInjective(Prefix, c1, u1, c2, u2);
  }

  /** The blocks of a search result message. */
  datatype Block = Header(text: string) | Section(text: string) | Context(text: string)

  /** `chat_postMessage` to a channel, with or without blocks (the text is
      then the notification fallback), and `say` in the event's channel,
      in a thread or not. */
  datatype Post =
    | Posted(channel: string, text: string)
    | PostedBlocks(channel: string, blocks: seq<Block>, text: string)
    | Said(text: string, thread: Option<string>)

  const CommandsText := "*FlowGPT Bot Commands*\n\n"
    + "`/flowgpt chat <message>` - Chat with the AI\n"
    + "`/flowgpt clear` - Clear conversation history\n"
    + "`/flowgpt prompt <text>` - Set custom system prompt\n"
    + "`/flowgpt search <query>` - Search FlowGPT prompts\n"
    + "`/flowgpt load <prompt_id>` - Load a FlowGPT prompt\n"
    + "`/flowgpt help` - Show this help message"

  const HelpText := "*FlowGPT Bot Help*\n\n"
    + "`/flowgpt chat <message>` - Chat with the AI assistant\n"
    + "`/flowgpt clear` - Clear your conversation history\n"
    + "`/flowgpt prompt <text>` - Set a custom system prompt\n"
    + "`/flowgpt search <query>` - Search for FlowGPT prompts\n"
    + "`/flowgpt load <prompt_id>` - Load a specific FlowGPT prompt\n"
    + "`/flowgpt help` - Show this help message\n\n"
    + "*Tips:*\n"
    + "- Mention the bot in a channel to chat directly\n"
    + "- Use `/flowgpt clear` to start a fresh conversation\n"
    + "- Use `/flowgpt prompt` to customize the AI's behavior"

  const ChatUsage := "Please provide a message. Usage: `/flowgpt chat <message>`"
  const Thinking := ":hourglass: Thinking..."
  const ClearedText := ":white_check_mark: Conversation history cleared!"
  const PromptUsage := "Please provide a system prompt. Usage: `/flowgpt prompt <text>`"
  const PromptUpdated := ":white_check_mark: System prompt updated!\n\n*New prompt:* "
  const SearchUsage := "Please provide a search query. Usage: `/flowgpt search <query>`"
  const NoPrompts := "No prompts found."
  const LoadHint := "Use `/flowgpt load <prompt_id>` to load a prompt"
  const LoadUsage := "Please provide a prompt ID. Usage: `/flowgpt load <prompt_id>`"
  const LoadedText := ":white_check_mark: Prompt loaded successfully!\n\n*Preview:* "
  const LoadFailed := "Could not load the prompt. Please check the ID and try again."
  const Greeting := "Hello! Mention me with a message to chat, or use `/flowgpt help` for commands."
  const PreviewCut := 100
  const LoadPreviewCut := 200
  const DescriptionCut := 100

  // ------------------------------------------------------------ search blocks

  /** One result: `"*{i}. {title}*\nID: `{id}`\n{description}..."`. */
  function SectionText(l: Listed): string {
    "*" + NatToString(l.number) + ". " + l.title + "*\nID: `" + l.id + "`\n" + l.description + "..."
  }

  /** One section block per text, in order. */
  function Sections(texts: seq<string>): (r: seq<Block>)
    ensures |r| == |texts| && forall i | 0 <= i < |texts| :: r[i] == Section(texts[i])
  {
    seq(|texts|, i requires 0 <= i < |texts| => Section(texts[i]))
  }

  /** The message of a non-empty search: a header naming the query, one
      section per listed result, and the hint how to load one. */
  function SearchBlocks(query: string, prompts: seq<Prompt>): seq<Block> {
    [Header("FlowGPT Prompts: " + query)] + Sections(Rendered(Listing(prompts, DescriptionCut), SectionText))
    + [Context(LoadHint)]
  }

  /** At most five results are shown, in the catalog's order, numbered
      from 1, each description cut to 100 characters, between the header
      and the hint. */
  lemma SearchBlocksShape(query: string, prompts: seq<Prompt>)
    ensures var b := SearchBlocks(query, prompts);
            |b| == Min(|prompts|, ListingSize) + 2
            && b[0] == Header("FlowGPT Prompts: " + query)
            && b[|b| - 1] == Context(LoadHint)
            && forall i | 1 <= i < |b| - 1 ::
                 b[i] == Section(SectionText(ListedOf(i, prompts[i - 1], DescriptionCut)))
  {
    var ls := Listing(prompts, DescriptionCut);
    var texts := Rendered(ls, SectionText);
    var mid := Sections(texts);
    var b := SearchBlocks(query, prompts);
    assert b == [Header("FlowGPT Prompts: " + query)] + mid + [Context(LoadHint)];
    assert |b| == |ls| + 2;
    assert |ls| <= |prompts|;
    forall i | 1 <= i < |b| - 1
      ensures b[i] == Section(SectionText(ListedOf(i, prompts[i - 1], DescriptionCut)))
    {
      var k := i - 1;
      assert k < |ls| <= |prompts|;
      assert b[i] == mid[k] == Section(texts[k]);
      assert ls[k] == ListedOf(k + 1, prompts[k], DescriptionCut);
    }
  }

  /** One more listed result adds exactly its section. */
  lemma SectionsStep(ls: seq<Listed>, i: nat)
    requires i < |ls|
    ensures Sections(Rendered(ls[..i + 1], SectionText))
         == Sections(Rendered(ls[..i], SectionText)) + [Section(SectionText(ls[i]))]
  {
    assert ls[..i + 1] == ls[..i] + [ls[i]];
    assert Rendered(ls[..i + 1], SectionText) == Rendered(ls[..i], SectionText) + [SectionText(ls[i])];
  }

  /** The `blocks.append(...)` loop over `enumerate(prompts[:5], 1)`. */
  method BuildBlocks(query: string, prompts: seq<Prompt>) returns (blocks: seq<Block>)
    ensures blocks == SearchBlocks(query, prompts)
  {
    var ls := Listing(prompts, DescriptionCut);
    var header := Header("FlowGPT Prompts: " + query);
    blocks := [header];
    for i := 0 to |ls|
      invariant blocks == [header] + Sections(Rendered(ls[..i], SectionText))
    {
      SectionsStep(ls, i);
      blocks := blocks + [Section(SectionText(ls[i]))];
    }
    assert ls[..|ls|] == ls;
    blocks := blocks + [Context(LoadHint)];
  }

  /** The fallback text: `"Found {len(prompts[:5])} prompts"`. */
  function FoundText(prompts: seq<Prompt>): string {
    "Found " + NatToString(Min(|prompts|, ListingSize)) + " prompts"
  }

  // ------------------------------------------------------------ /flowgpt

  /** `handle_flowgpt_command` for the command text as typed. The text is
      stripped; empty, it posts the command list. Otherwise its first word,
      lower-cased, picks the subcommand and the rest of the line is the
      argument. */
  function FlowgptCommand(t: Table, cfg: Settings, rawText: string, channel: string, user: string,
                          upstream: Upstream, catalog: SearchRequest -> CatalogReply): (o: Outcome<Post>)
    ensures var text := Strip(rawText);
            text == "" ==> o == Outcome(t, [Posted(channel, CommandsText)])
    ensures var text := Strip(rawText);
            text != "" ==>
              var parts := SplitOnce(text);
              |parts| >= 1
              && o == Subcommand(t, cfg, Lower(parts[0]), if |parts| > 1 then parts[1] else "",
                                 channel, ConversationId(channel, user), upstream, catalog)
  {
    var text := Strip(rawText);
    if text == "" then Outcome(t, [Posted(channel, CommandsText)])
    else
      var parts := SplitOnce(text);
      assert !AllSpace(text) by { assert !IsSpace(text[0]); }
      Subcommand(t, cfg, Lower(parts[0]), if |parts| > 1 then parts[1] else "",
                 channel, ConversationId(channel, user), upstream, catalog)
  }

  /** `chat message`: usage without a message; otherwise a "Thinking"
      notice, then the reply of one chat turn. */
  function ChatSubcommand(t: Table, cfg: Settings, args: string, channel: string, id: string,
                          upstream: Upstream): (o: Outcome<Post>)
    ensures args == "" ==> o == Outcome(t, [Posted(channel, ChatUsage)])
    ensures args != "" ==>
              var x := ChatStep(t, cfg, id, args, None, upstream);
              o == Outcome(x.table, [Posted(channel, Thinking), Posted(channel, x.reply)])
  {
    if args == "" then Outcome(t, [Posted(channel, ChatUsage)])
    else
      var x := ChatStep(t, cfg, id, args, None, upstream);
      Outcome(x.table, [Posted(channel, Thinking), Posted(channel, x.reply)])
  }

  /** `prompt text`: usage without text; otherwise the text becomes the
      prompt, the history is cleared, and a 100-character preview is posted. */
  function PromptSubcommand(t: Table, cfg: Settings, args: string, channel: string, id: string): (o: Outcome<Post>)
    ensures args == "" ==> o == Outcome(t, [Posted(channel, PromptUsage)])
    ensures args != "" ==>
              o.table.Keys == t.Keys + {id} && o.table[id] == ConvState([], args)
              && (forall k | k in t && k != id :: o.table[k] == t[k])
              && o.sends == [Posted(channel, PromptUpdated + Preview(args, PreviewCut))]
  {
    if args == "" then Outcome(t, [Posted(channel, PromptUsage)])
    else Outcome(SetThenClear(t, cfg, id, args), [Posted(channel, PromptUpdated + Preview(args, PreviewCut))])
  }

  /** `search query`: never touches the table. Usage without a query;
      otherwise a "Searching for" notice, then "No prompts found." or the
      result blocks. */
  function SearchSubcommand(t: Table, args: string, channel: string,
                            catalog: SearchRequest -> CatalogReply): (o: Outcome<Post>)
    ensures o.table == t
    ensures args == "" ==> o.sends == [Posted(channel, SearchUsage)]
    ensures args != "" ==>
              var prompts := SearchByQuery(args, catalog);
              o.sends == [Posted(channel, ":mag: Searching for: " + args + "..."),
                          if prompts == [] then Posted(channel, NoPrompts)
                          else PostedBlocks(channel, SearchBlocks(args, prompts), FoundText(prompts))]
  {
    if args == "" then Outcome(t, [Posted(channel, SearchUsage)])
    else
      var prompts := SearchByQuery(args, catalog);
      Outcome(t, [Posted(channel, ":mag: Searching for: " + args + "..."),
                  if prompts == [] then Posted(channel, NoPrompts)
                  else PostedBlocks(channel, SearchBlocks(args, prompts), FoundText(prompts))])
  }

  /** `load id`: usage without an id; otherwise a "Loading" notice, then a
      non-empty loaded prompt is set and the history cleared, with a
      200-character preview; when nothing usable is loaded the table is
      untouched and the failure text is posted. */
  function LoadSubcommand(t: Table, cfg: Settings, args: string, channel: string, id: string,
                          catalog: SearchRequest -> CatalogReply): (o: Outcome<Post>)
    ensures args == "" ==> o == Outcome(t, [Posted(channel, LoadUsage)])
    ensures args != "" ==>
              var loaded := LoadedPrompt(args, catalog);
              |o.sends| == 2 && o.sends[0] == Posted(channel, ":hourglass: Loading prompt: " + args + "...")
              && if Usable(loaded) then
                   o.table.Keys == t.Keys + {id} && o.table[id] == ConvState([], loaded.value)
                   && (forall k | k in t && k != id :: o.table[k] == t[k])
                   && o.sends[1] == Posted(channel, LoadedText + Preview(loaded.value, LoadPreviewCut))
                 else
                   o.table == t && o.sends[1] == Posted(channel, LoadFailed)
  {
    if args == "" then Outcome(t, [Posted(channel, LoadUsage)])
    else
      var notice := Posted(channel, ":hourglass: Loading prompt: " + args + "...");
      var loaded := LoadedPrompt(args, catalog);
      if Usable(loaded) then
        Outcome(SetThenClear(t, cfg, id, loaded.value),
                [notice, Posted(channel, LoadedText + Preview(loaded.value, LoadPreviewCut))])
      else Outcome(t, [notice, Posted(channel, LoadFailed)])
  }

  /** The branches on the subcommand; every post goes to the command's
      channel. Only `chat`, `clear`, `prompt` and `load` can change the
      table; an unknown subcommand is named back. */
  function Subcommand(t: Table, cfg: Settings, sub: string, args: string, channel: string, id: string,
                      upstream: Upstream, catalog: SearchRequest -> CatalogReply): (o: Outcome<Post>)
    ensures sub == "chat" ==> o == ChatSubcommand(t, cfg, args, channel, id, upstream)
    ensures sub == "clear" ==> o == Outcome(Cleared(t, id), [Posted(channel, ClearedText)])
    ensures sub == "prompt" ==> o == PromptSubcommand(t, cfg, args, channel, id)
    ensures sub == "search" ==> o == SearchSubcommand(t, args, channel, catalog)
    ensures sub == "load" ==> o == LoadSubcommand(t, cfg, args, channel, id, catalog)
    ensures sub == "help" ==> o == Outcome(t, [Posted(channel, HelpText)])
    ensures sub != "chat" && sub != "clear" && sub != "prompt" && sub != "load" ==> o.table == t
    ensures sub != "chat" && sub != "clear" && sub != "prompt" && sub != "search" && sub != "load" && sub != "help" ==>
              o == Outcome(t, [Posted(channel, "Unknown command: `" + sub + "`. Use `/flowgpt help` for available commands.")])
  {
    if sub == "chat" then ChatSubcommand(t, cfg, args, channel, id, upstream)
    else if sub == "clear" then Outcome(Cleared(t, id), [Posted(channel, ClearedText)])
    else if sub == "prompt" then PromptSubcommand(t, cfg, args, channel, id)
    else if sub == "search" then SearchSubcommand(t, args, channel, catalog)
    else if sub == "load" then LoadSubcommand(t, cfg, args, channel, id, catalog)
    else if sub == "help" then Outcome(t, [Posted(channel, HelpText)])
    else Outcome(t, [Posted(channel, "Unknown command: `" + sub + "`. Use `/flowgpt help` for available commands.")])
  }

  // ------------------------------------------------------------ mentions

  /** A character of the regular expression class `\w`, ASCII part. */
  predicate WordChar(c: char) {
    ('a' <= c <= 'z') || ('A' <= c <= 'Z') || ('0' <= c <= '9') || c == '_'
  }

  /** The length of the run of word characters at the start of `s`. */
  function WordRun(s: string): (n: nat)
    ensures n <= |s| && (forall i | 0 <= i < n :: WordChar(s[i])) && (n < |s| ==> !WordChar(s[n]))
  {
    if s != [] && WordChar(s[0]) then 1 + WordRun(s[1..]) else 0
  }

  /** The length of a match of `<@\w+>` at the start of `s`, or 0 when
      there is none: `<@`, at least one word character, then `>`. */
  function MentionAt(s: string): (n: nat)
    ensures n <= |s|
    ensures n > 0 ==> n >= 4 && s[..2] == "<@" && s[n - 1] == '>'
    ensures n > 0 ==> forall i | 2 <= i < n - 1 :: WordChar(s[i])
  {
    if |s| >= 2 && s[..2] == "<@" then
      var w := WordRun(s[2..]);
      if w > 0 && 2 + w < |s| && s[2 + w] == '>' then
        assert forall i | 2 <= i < 2 + w :: s[i] == s[2..][i - 2];
        3 + w
      else 0
    else 0
  }

  /** Every match is found: `<@`, word characters up to position `k`, and
      `>` at `k` give a match ending just after `k`. */
  lemma MentionAtFindsMatch(s: string, k: nat)
    requires 3 <= k < |s| && s[..2] == "<@" && s[k] == '>'
    requires forall i | 2 <= i < k :: WordChar(s[i])
    ensures MentionAt(s) == k + 1
  {
    var u := s[2..];
    var w := WordRun(u);
    assert u[k - 2] == '>' && !WordChar('>');
    assert forall i | 0 <= i < k - 2 :: WordChar(u[i]) by {
      forall i | 0 <= i < k - 2 ensures WordChar(u[i]) { assert u[i] == s[i + 2]; }
    }
    assert w == k - 2;
  }

  /** `re.sub(r"<@\w+>", "", s)`: every match, scanning left to right
      without overlaps, removed. */
  function StripMentions(s: string): (r: string)
    ensures |r| <= |s|
    decreases |s|
  {
    if s == [] then []
    else
      var n := MentionAt(s);
      if n > 0 then StripMentions(s[n..]) else [s[0]] + StripMentions(s[1..])
  }

  /** A text without `<` has nothing to remove. */
  lemma {:induction false} StripMentionsKeepsPlainText(s: string)
    requires forall i | 0 <= i < |s| :: s[i] != '<'
    ensures StripMentions(s) == s
    decreases |s|
  {
    if s != [] {
      assert MentionAt(s) == 0 by {
        if |s| >= 2 { assert s[..2][0] == s[0] != '<'; }
      }
      StripMentionsKeepsPlainText(s[1..]);
      assert StripMentions(s) == [s[0]] + StripMentions(s[1..]);
      assert s == [s[0]] + s[1..];
    }
  }

  /** A leading mention of any word-character id goes, and the rest is
      treated on its own. */
  lemma StripLeadingMention(id: string, rest: string)
    requires id != [] && forall i | 0 <= i < |id| :: WordChar(id[i])
    ensures StripMentions("<@" + id + ">" + rest) == StripMentions(rest)
  {
    var s := "<@" + id + ">" + rest;
    var tail := ">" + rest;
    assert s == "<@" + (id + tail);
    assert s[..2] == "<@" && s[2..] == id + tail;
    WordRunOfWord(id, tail);
    assert s[2 + |id|] == '>';
    assert MentionAt(s) == 3 + |id|;
    assert s[3 + |id|..] == rest;
  }

  lemma {:induction false} WordRunOfWord(w: string, rest: string)
    requires forall i | 0 <= i < |w| :: WordChar(w[i])
    requires rest != [] && !WordChar(rest[0])
    ensures WordRun(w + rest) == |w|
    decreases |w|
  {
    if w != [] {
      assert (w + rest)[1..] == w[1..] + rest;
      WordRunOfWord(w[1..], rest);
    } else {
      assert w + rest == rest;
    }
  }

  /** The mention text: with the bot's own user id known (`start` has
      run), only its mentions are removed; before that, every `<@...>`
      mention is. Then the text is stripped. */
  function MentionText(text: string, botUserId: Option<string>): string {
    if botUserId.Some? && botUserId.value != "" then Strip(RemoveAll(text, "<@" + botUserId.value + ">"))
    else Strip(StripMentions(text))
  }

  /** `handle_mention`: the reply goes into the event's thread, or starts
      one under the mentioning message. A mention with nothing else greets;
      anything else is a chat turn. */
  function HandleMention(t: Table, cfg: Settings, text: string, channel: string, user: string,
                         ts: string, threadTs: Option<string>, botUserId: Option<string>,
                         upstream: Upstream): (o: Outcome<Post>)
    ensures var thread := if threadTs.Some? && threadTs.value != "" then threadTs.value else ts;
            var m := MentionText(text, botUserId);
            if m == "" then o == Outcome(t, [Said(Greeting, Some(thread))])
            else
              var x := ChatStep(t, cfg, ConversationId(channel, user), m, None, upstream);
              o == Outcome(x.table, [Said(x.reply, Some(thread))])
  {
    var thread := if threadTs.Some? && threadTs.value != "" then threadTs.value else ts;
    var m := MentionText(text, botUserId);
    if m == "" then Outcome(t, [Said(Greeting, Some(thread))])
    else
      var x := ChatStep(t, cfg, ConversationId(channel, user), m, None, upstream);
      Outcome(x.table, [Said(x.reply, Some(thread))])
  }

  /** A mention that is only the bot's own tag greets and changes nothing. */
  lemma BareMentionGreets(t: Table, cfg: Settings, channel: string, user: string, ts: string,
                          botUserId: string, upstream: Upstream)
    requires botUserId != [] && forall i | 0 <= i < |botUserId| :: WordChar(botUserId[i])
    ensures HandleMention(t, cfg, "<@" + botUserId + ">", channel, user, ts, None, None, upstream)
            == Outcome(t, [Said(Greeting, Some(ts))])
  {
    StripLeadingMention(botUserId, "");
    assert "<@" + botUserId + ">" + "" == "<@" + botUserId + ">";
    assert StripMentions("") == "";
    assert Strip("") == "";
  }

  // ------------------------------------------------------------ direct messages

  /** The fields of a `message` event that `handle_direct_message` reads;
      absent `channel_type` and `bot_id` are `None`. */
  datatype DirectEvent = DirectEvent(channelType: Option<string>, botId: Option<string>, text: string,
                                     channel: string, user: string)

  /** Whether the event is answered: it is a direct (`im`) message, sent by
      no bot, with text left after stripping. */
  predicate Answered(e: DirectEvent) {
    e.channelType == Some("im") && !(e.botId.Some? && e.botId.value != "") && Strip(e.text) != ""
  }

  /** `handle_direct_message`: an answered event is one chat turn with the
      stripped text, the reply said in the channel; any other event is
      ignored and changes nothing. */
  function HandleDirectMessage(t: Table, cfg: Settings, e: DirectEvent, upstream: Upstream): (o: Outcome<Post>)
    ensures !Answered(e) ==> o == Outcome(t, [])
    ensures Answered(e) ==>
              var x := ChatStep(t, cfg, ConversationId(e.channel, e.user), Strip(e.text), None, upstream);
              o == Outcome(x.table, [Said(x.reply, None)])
  {
    if e.channelType != Some("im") then Outcome(t, [])
    else if e.botId.Some? && e.botId.value != "" then Outcome(t, [])
    else
      var text := Strip(e.text);
      if text == "" then Outcome(t, [])
      else
        var x := ChatStep(t, cfg, ConversationId(e.channel, e.user), text, None, upstream);
        Outcome(x.table, [Said(x.reply, None)])
  }
}
