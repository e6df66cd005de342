/**
 * The decisions of the Discord bot (src/services/discord/bot.py): each
 * slash command and the message listener as a function from its input and
 * the conversation table to the new table and what is sent. Network sends
 * are values of `Send`; the chat and catalog round trips are the inputs
 * `upstream` and `catalog` of engine.dfy and catalog.dfy.
 */
module Discord {
  import opened Wrappers
  import opened Text
  import opened Conversations
  import opened Engine
  import opened Catalog
  import opened Replies

  const Prefix := "discord_"
  const MessageLimit := 2000

  /** `_get_conversation_id`: interactions and messages alike use the
      channel id and the user's id, both snowflakes (non-negative). */
  function ConversationId(channelId: nat, userId: nat): string {
    PairId(Prefix, NatToString(channelId), NatToString(userId))
  }

  /** Different (channel, user) pairs never share a conversation. */
  lemma ConversationIdInjective(c1: nat, u1: nat, c2: nat, u2: nat)
    requires ConversationId(c1, u1) == ConversationId(c2, u2)
    ensures c1 == c2 && u1 == u2
  {
    PairIdInjective(Prefix, NatToString(c1), NatToString(u1), NatToString(c2), NatToString(u2));
    ParseNatToString(c1);
    ParseNatToString(c2);
    ParseNatToString(u1);
    ParseNatToString(u2);
  }

  datatype EmbedField = EmbedField(name: string, value: string)

  datatype Embed = Embed(title: string, description: Option<string>, fields: seq<EmbedField>, footer: Option<string>)

  datatype Post = Text(text: string) | Card(embed: Embed)

  /** Where a post goes: the interaction's follow-up, the interaction's
      immediate response (private to the user when `ephemeral`), the
      channel, or a reply to the triggering message. */
  datatype Route = Followup | Response(ephemeral: bool) | Channel | ReplyTo

  datatype Send = Send(route: Route, post: Post)

  function TextsOf(sends: seq<Send>): seq<string> {
    seq(|sends|, i requires 0 <= i < |sends| => if sends[i].post.Text? then sends[i].post.text else "")
  }

  /** How a chat reply goes out: its 2000-character slices, the first one on
      `first` and the rest to the channel; a short reply is sent once. */
  function Delivered(reply: string, first: Route): (sends: seq<Send>)
    ensures |sends| >= 1 && sends[0].route == first
    ensures forall i | 1 <= i < |sends| :: sends[i].route == Channel
    ensures forall i | 0 <= i < |sends| :: sends[i].post.Text?
    ensures Concat(TextsOf(sends)) == reply
    ensures TextsOf(sends) == Chunked(reply, MessageLimit)
    ensures |reply| <= MessageLimit ==> sends == [Send(first, Text(reply))]
  {
    var parts := Chunked(reply, MessageLimit);
    var sends := [Send(first, Text(parts[0]))] + seq(|parts| - 1, i requires 0 <= i < |parts| - 1 => Send(Channel, Text(parts[i + 1])));
    assert TextsOf(sends) == parts;
    sends
  }

  /** The sending code of the chat paths: the first slice on `first`, then
      `for chunk in chunks[1:]` to the channel. */
  method SendReply(reply: string, first: Route) returns (sends: seq<Send>)
    ensures sends == Delivered(reply, first)
  {
    var chunks := Chunked(reply, MessageLimit);
    sends := [Send(first, Text(chunks[0]))];
    var i := 1;
    while i < |chunks|
      invariant 1 <= i <= |chunks|
      invariant |sends| == i
      invariant sends[0] == Send(first, Text(chunks[0]))
      invariant forall k | 1 <= k < i :: sends[k] == Send(Channel, Text(chunks[k]))
    {
      sends := sends + [Send(Channel, Text(chunks[i]))];
      i := i + 1;
    }
  }

  const DefaultGreeting := "Hello! Use `/chat` to talk to me or mention me with a message."
  const ClearedText := "Conversation history cleared!"
  const PromptUpdated := "System prompt updated!\n\nNew prompt: "
  const NoPrompts := "No prompts found."
  const LoadedText := "Prompt loaded successfully!\n\nPreview: "
  const LoadFailed := "Could not load the prompt. Please check the ID and try again."
  const PreviewCut := 100
  const LoadPreviewCut := 200
  const DescriptionCut := 100

  /** `/chat message`: one chat turn, its reply on the follow-up. */
  function ChatCommand(t: Table, cfg: Settings, channelId: nat, userId: nat, message: string,
                       upstream: Upstream): (o: Outcome<Send>)
    ensures var x := ChatStep(t, cfg, ConversationId(channelId, userId), message, None, upstream);
            o.table == x.table && o.sends == Delivered(x.reply, Followup)
  {
    var x := ChatStep(t, cfg, ConversationId(channelId, userId), message, None, upstream);
    Outcome(x.table, Delivered(x.reply, Followup))
  }

  /** `/clear`: clears the caller's history and confirms privately. */
  function ClearCommand(t: Table, channelId: nat, userId: nat): (o: Outcome<Send>)
    ensures o.table == Cleared(t, ConversationId(channelId, userId))
    ensures o.sends == [Send(Response(true), Text(ClearedText))]
  {
    Outcome(Cleared(t, ConversationId(channelId, userId)), [Send(Response(true), Text(ClearedText))])
  }

  /** `/prompt prompt`: the conversation ends up with that prompt and no
      history; the confirmation shows a 100-character preview. */
  function PromptCommand(t: Table, cfg: Settings, channelId: nat, userId: nat, prompt: string): (o: Outcome<Send>)
    ensures var id := ConversationId(channelId, userId);
            o.table.Keys == t.Keys + {id} && o.table[id] == ConvState([], prompt)
            && (forall k | k in t && k != id :: o.table[k] == t[k])
    ensures o.sends == [Send(Response(true), Text(PromptUpdated + Preview(prompt, PreviewCut)))]
  {
    var id := ConversationId(channelId, userId);
    Outcome(SetThenClear(t, cfg, id, prompt), [Send(Response(true), Text(PromptUpdated + Preview(prompt, PreviewCut)))])
  }

  /** One embed field per listed result. */
  function FieldOf(l: Listed): EmbedField {
    EmbedField(NatToString(l.number) + ". " + l.title, "ID: `" + l.id + "`\n" + l.description + "...")
  }

  function SearchEmbed(query: string, prompts: seq<Prompt>): (e: Embed)
    ensures |e.fields| == Min(|prompts|, ListingSize)
    ensures forall i | 0 <= i < |e.fields| :: e.fields[i] == FieldOf(ListedOf(i + 1, prompts[i], DescriptionCut))
  {
    var ls := Listing(prompts, DescriptionCut);
    Embed("FlowGPT Prompts: " + query, None, seq(|ls|, i requires 0 <= i < |ls| => FieldOf(ls[i])),
          Some("Use /load <prompt_id> to load a prompt"))
  }

  /** `/search query`: never touches the table; either "No prompts found."
      or one embed listing at most the first five results. */
  function SearchCommand(t: Table, query: string, catalog: SearchRequest -> CatalogReply): (o: Outcome<Send>)
    ensures o.table == t && |o.sends| == 1 && o.sends[0].route == Followup
    ensures SearchByQuery(query, catalog) == [] <==> o.sends[0].post == Text(NoPrompts)
    ensures SearchByQuery(query, catalog) != [] ==>
              o.sends[0].post == Card(SearchEmbed(query, SearchByQuery(query, catalog)))
  {
    var prompts := SearchByQuery(query, catalog);
    if prompts == [] then Outcome(t, [Send(Followup, Text(NoPrompts))])
    else Outcome(t, [Send(Followup, Card(SearchEmbed(query, prompts)))])
  }

  /** `/load prompt_id`: a non-empty loaded prompt replaces the caller's
      prompt and clears the history; otherwise nothing changes. */
  function LoadCommand(t: Table, cfg: Settings, channelId: nat, userId: nat, promptId: string,
                       catalog: SearchRequest -> CatalogReply): (o: Outcome<Send>)
    ensures var loaded := LoadedPrompt(promptId, catalog);
            var id := ConversationId(channelId, userId);
            if Usable(loaded) then
              o.table.Keys == t.Keys + {id} && o.table[id] == ConvState([], loaded.value)
              && (forall k | k in t && k != id :: o.table[k] == t[k])
              && o.sends == [Send(Followup, Text(LoadedText + Preview(loaded.value, LoadPreviewCut)))]
            else
              o.table == t && o.sends == [Send(Followup, Text(LoadFailed))]
  {
    var loaded := LoadedPrompt(promptId, catalog);
    if Usable(loaded) then
      Outcome(SetThenClear(t, cfg, ConversationId(channelId, userId), loaded.value),
              [Send(Followup, Text(LoadedText + Preview(loaded.value, LoadPreviewCut)))])
    else Outcome(t, [Send(Followup, Text(LoadFailed))])
  }

  const HelpEmbed := Embed("FlowGPT Bot Help", Some("An AI assistant powered by FlowGPT prompts"), [
    EmbedField("/chat <message>", "Chat with the AI assistant"),
    EmbedField("/clear", "Clear your conversation history"),
    EmbedField("/prompt <text>", "Set a custom system prompt"),
    EmbedField("/search <query>", "Search for FlowGPT prompts"),
    EmbedField("/load <prompt_id>", "Load a specific FlowGPT prompt")], None)

  /** `/help`: one private embed; the table is untouched. */
  function HelpCommand(t: Table): (o: Outcome<Send>)
    ensures o.table == t && o.sends == [Send(Response(true), Card(HelpEmbed))]
  {
    Outcome(t, [Send(Response(true), Card(HelpEmbed))])
  }

  /** What `on_message` reads of a message. `mentionedIn` is the library's
      `mentioned_in` test for this bot. */
  datatype Incoming = Incoming(authorIsBot: bool, isDirect: bool, mentionedIn: bool, mentionEveryone: bool,
                               channelId: nat, authorId: nat, content: string)

  /** The text the bot answers to in a mention: every `<@botId>` removed,
      then stripped. */
  function MentionText(content: string, botId: nat): string {
    Strip(RemoveAll(content, "<@" + NatToString(botId) + ">"))
  }

  /** `on_message`: messages by bots are ignored; a direct message is chatted
      as it is and every slice goes to the channel; a mention (not of
      everyone) is chatted with the mentions removed, or answered with the
      greeting, and no chat happens, when nothing is left; anything else is
      ignored. */
  function OnMessage(t: Table, cfg: Settings, m: Incoming, botId: nat, upstream: Upstream): (o: Outcome<Send>)
    ensures m.authorIsBot ==> o == Outcome(t, [])
    ensures !m.authorIsBot && m.isDirect ==>
              var x := ChatStep(t, cfg, ConversationId(m.channelId, m.authorId), m.content, None, upstream);
              o.table == x.table && o.sends == Delivered(x.reply, Channel)
    ensures !m.authorIsBot && !m.isDirect && !(m.mentionedIn && !m.mentionEveryone) ==> o == Outcome(t, [])
    ensures !m.authorIsBot && !m.isDirect && m.mentionedIn && !m.mentionEveryone ==>
              var text := MentionText(m.content, botId);
              if text == "" then o == Outcome(t, [Send(ReplyTo, Text(DefaultGreeting))])
              else
                var x := ChatStep(t, cfg, ConversationId(m.channelId, m.authorId), text, None, upstream);
                o.table == x.table && o.sends == Delivered(x.reply, ReplyTo)
  {
    var id := ConversationId(m.channelId, m.authorId);
    if m.authorIsBot then Outcome(t, [])
    else if m.isDirect then
      var x := ChatStep(t, cfg, id, m.content, None, upstream);
      Outcome(x.table, Delivered(x.reply, Channel))
    else if m.mentionedIn && !m.mentionEveryone then
      var text := MentionText(m.content, botId);
      if text == "" then Outcome(t, [Send(ReplyTo, Text(DefaultGreeting))])
      else
        var x := ChatStep(t, cfg, id, text, None, upstream);
        Outcome(x.table, Delivered(x.reply, ReplyTo))
    else Outcome(t, [])
  }

  /** A mention that is only the bot's own mention (and whitespace) gets the
      greeting and leaves the table as it was. */
  lemma BareMentionGreets(t: Table, cfg: Settings, m: Incoming, botId: nat, upstream: Upstream)
    requires !m.authorIsBot && !m.isDirect && m.mentionedIn && !m.mentionEveryone
    requires m.content == "<@" + NatToString(botId) + ">"
    ensures OnMessage(t, cfg, m, botId, upstream) == Outcome(t, [Send(ReplyTo, Text(DefaultGreeting))])
  {
    var pattern := "<@" + NatToString(botId) + ">";
    assert m.content[..|pattern|] == pattern;
    assert m.content[|pattern|..] == [];
    assert RemoveAll(m.content, pattern) == [];
  }
}
