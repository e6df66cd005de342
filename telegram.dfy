/**
 * The decisions of the Telegram bot (src/services/telegram/bot.py): each
 * command handler and the text-message handler as a function from its
 * input and the conversation table to the new table and the texts sent
 * with `reply_text`, in order. `args` is the command's argument words as
 * the library splits them.
 */
module Telegram {
  import opened Wrappers
  import opened Text
  import opened Conversations
  import opened Engine
  import opened Catalog
  import opened Replies

  const Prefix := "telegram_"
  const MessageLimit := 4096

  /** `_get_conversation_id`: the chat id and the user id, `0` when the
      update has no effective user. */
  function ConversationId(chatId: int, userId: Option<int>): string {
    PairId(Prefix, IntToString(chatId), IntToString(userId.GetOr(0)))
  }

  /** Different chats, or different users in one chat, never share a
      conversation; an update without a user shares user 0's. */
  lemma ConversationIdInjective(c1: int, u1: Option<int>, c2: int, u2: Option<int>)
    requires ConversationId(c1, u1) == ConversationId(c2, u2)
    ensures c1 == c2 && u1.GetOr(0) == u2.GetOr(0)
  {
    PairIdInjective(Prefix, IntToString(c1), IntToString(u1.GetOr(0)), IntToString(c2), IntToString(u2.GetOr(0)));
    IntToStringInjective(c1, c2);
    IntToStringInjective(u1.GetOr(0), u2.GetOr(0));
  }

  const WelcomeText := "Welcome to FlowGPT Bot!\n\n"
    + "I'm an AI assistant powered by FlowGPT prompts.\n\n"
    + "Commands:\n"
    + "/start - Show this welcome message\n"
    + "/help - Show help information\n"
    + "/clear - Clear conversation history\n"
    + "/prompt <text> - Set a custom system prompt\n"
    + "/search <query> - Search FlowGPT prompts\n"
    + "/load <prompt_id> - Load a FlowGPT prompt\n\n"
    + "Just send me a message to start chatting!"

  const HelpText := "FlowGPT Bot Help\n\n"
    + "Available Commands:\n"
    + "/start - Show welcome message\n"
    + "/help - Show this help message\n"
    + "/clear - Clear your conversation history\n"
    + "/prompt <text> - Set a custom system prompt for the AI\n"
    + "/search <query> - Search for prompts on FlowGPT\n"
    + "/load <prompt_id> - Load a specific FlowGPT prompt\n\n"
    + "Tips:\n"
    + "- Just type your message to chat with the AI\n"
    + "- Use /clear to start a fresh conversation\n"
    + "- Use /prompt to customize the AI's behavior"

  const ClearedText := "Conversation history cleared!"
  const PromptUsage := "Please provide a system prompt.\nUsage: /prompt <your system prompt>"
  const SearchUsage := "Please provide a search query.\nUsage: /search <query>"
  const LoadUsage := "Please provide a prompt ID.\nUsage: /load <prompt_id>"
  const PromptUpdated := "System prompt updated!\n\nNew prompt: "
  const NoPrompts := "No prompts found."
  const ListingHeader := "Found prompts:\n\n"
  const ListingFooter := "Use /load <prompt_id> to load a prompt."
  const LoadedText := "Prompt loaded successfully!\n\nPreview: "
  const LoadFailed := "Could not load the prompt. Please check the ID and try again."
  const PreviewCut := 100
  const LoadPreviewCut := 200
  const DescriptionCut := 100

  /** `/start` and `/help`: a fixed text; the table is untouched. */
  function StartCommand(t: Table): (o: Outcome<string>)
    ensures o.table == t && o.sends == [WelcomeText]
  {
    Outcome(t, [WelcomeText])
  }

  function HelpCommand(t: Table): (o: Outcome<string>)
    ensures o.table == t && o.sends == [HelpText]
  {
    Outcome(t, [HelpText])
  }

  function ClearCommand(t: Table, chatId: int, userId: Option<int>): (o: Outcome<string>)
    ensures o.table == Cleared(t, ConversationId(chatId, userId)) && o.sends == [ClearedText]
  {
    Outcome(Cleared(t, ConversationId(chatId, userId)), [ClearedText])
  }

  /** `/prompt words...`: without words only the usage text; otherwise the
      words joined by single spaces become the prompt and the history is
      cleared. */
  function PromptCommand(t: Table, cfg: Settings, chatId: int, userId: Option<int>, args: seq<string>): (o: Outcome<string>)
    ensures args == [] ==> o == Outcome(t, [PromptUsage])
    ensures args != [] ==>
              var id := ConversationId(chatId, userId);
              var prompt := Join(args, " ");
              o.table.Keys == t.Keys + {id} && o.table[id] == ConvState([], prompt)
              && (forall k | k in t && k != id :: o.table[k] == t[k])
              && o.sends == [PromptUpdated + Preview(prompt, PreviewCut)]
  {
    if args == [] then Outcome(t, [PromptUsage])
    else
      var prompt := Join(args, " ");
      PreviewSpellingsAgree(prompt, PreviewCut);
      Outcome(SetThenClear(t, cfg, ConversationId(chatId, userId), prompt),
              [PromptUpdated + PreviewAppended(prompt, PreviewCut)])
  }

  /** One listed result: `"{i}. {title}\n   ID: {id}\n   {description}...\n\n"`. */
  function EntryText(l: Listed): string {
    NatToString(l.number) + ". " + l.title + "\n   ID: " + l.id + "\n   " + l.description + "...\n\n"
  }

  /** The text of a non-empty result list: header, at most five entries,
      footer; the loop `Replies.BuildListing` builds it from these texts. */
  function SearchText(prompts: seq<Prompt>): string {
    ListingHeader + Concat(Rendered(Listing(prompts, DescriptionCut), EntryText)) + ListingFooter
  }

  /** `/search words...`: never touches the table. Without words only the
      usage text; otherwise a "Searching for" notice, then either "No
      prompts found." or the listing. */
  function SearchCommand(t: Table, args: seq<string>, catalog: SearchRequest -> CatalogReply): (o: Outcome<string>)
    ensures o.table == t
    ensures args == [] ==> o.sends == [SearchUsage]
    ensures args != [] ==>
              var query := Join(args, " ");
              var prompts := SearchByQuery(query, catalog);
              |o.sends| == 2 && o.sends[0] == "Searching for: " + query + "..."
              && o.sends[1] == (if prompts == [] then NoPrompts else SearchText(prompts))
  {
    if args == [] then Outcome(t, [SearchUsage])
    else
      var query := Join(args, " ");
      var prompts := SearchByQuery(query, catalog);
      Outcome(t, ["Searching for: " + query + "..."] + [if prompts == [] then NoPrompts else SearchText(prompts)])
  }

  /** `/load id ...`: only the first word is the id. A non-empty loaded
      prompt replaces the prompt and clears the history; otherwise the
      table is untouched. */
  function LoadCommand(t: Table, cfg: Settings, chatId: int, userId: Option<int>, args: seq<string>,
                       catalog: SearchRequest -> CatalogReply): (o: Outcome<string>)
    ensures args == [] ==> o == Outcome(t, [LoadUsage])
    ensures args != [] ==>
              var loaded := LoadedPrompt(args[0], catalog);
              var id := ConversationId(chatId, userId);
              |o.sends| == 2 && o.sends[0] == "Loading prompt: " + args[0] + "..."
              && if Usable(loaded) then
                   o.table.Keys == t.Keys + {id} && o.table[id] == ConvState([], loaded.value)
                   && (forall k | k in t && k != id :: o.table[k] == t[k])
                   && o.sends[1] == LoadedText + Preview(loaded.value, LoadPreviewCut)
                 else
                   o.table == t && o.sends[1] == LoadFailed
  {
    if args == [] then Outcome(t, [LoadUsage])
    else
      var promptId := args[0];
      var notice := "Loading prompt: " + promptId + "...";
      var loaded := LoadedPrompt(promptId, catalog);
      if Usable(loaded) then
        PreviewSpellingsAgree(loaded.value, LoadPreviewCut);
        Outcome(SetThenClear(t, cfg, ConversationId(chatId, userId), loaded.value),
                [notice, LoadedText + PreviewAppended(loaded.value, LoadPreviewCut)])
      else Outcome(t, [notice, LoadFailed])
  }

  /** How `handle_message` sends a reply: once when it fits, else its
      4096-character slices. */
  method SendReply(response: string) returns (sends: seq<string>)
    ensures sends == Chunked(response, MessageLimit)
  {
    if |response| > MessageLimit {
      sends := SendSlices(response);
    } else {
      sends := [response];
    }
  }

  /** The loop `for i in range(0, len(response), 4096)` sending `response[i:i+4096]`. */
  method SendSlices(response: string) returns (sends: seq<string>)
    ensures sends == Slices(response, MessageLimit)
  {
    sends := [];
    var i := 0;
    while i < |response|
      invariant sends + Slices(response[Min(i, |response|)..], MessageLimit) == Slices(response, MessageLimit)
      decreases |response| - i
    {
      var j := Min(i + MessageLimit, |response|);
      SlicesFrom(response, MessageLimit, i);
      assert Min(i, |response|) == i;
      assert (sends + [response[i..j]]) + Slices(response[j..], MessageLimit) == Slices(response, MessageLimit);
      sends := sends + [response[i..j]];
      i := i + MessageLimit;
      assert Min(i, |response|) == j;
    }
    assert response[Min(i, |response|)..] == [];
  }

  /** `handle_message`: one chat turn with the message text, the reply sent
      in slices. */
  function HandleMessage(t: Table, cfg: Settings, chatId: int, userId: Option<int>, text: string,
                         upstream: Upstream): (o: Outcome<string>)
    ensures var x := ChatStep(t, cfg, ConversationId(chatId, userId), text, None, upstream);
            o.table == x.table && o.sends == Chunked(x.reply, MessageLimit) && Concat(o.sends) == x.reply
            && (|x.reply| > MessageLimit ==> forall i | 0 <= i < |o.sends| :: |o.sends[i]| <= MessageLimit)
            && (|x.reply| <= MessageLimit ==> o.sends == [x.reply])
            && (forall i | 0 <= i < |o.sends| - 1 :: |o.sends[i]| == MessageLimit)
  {
    var x := ChatStep(t, cfg, ConversationId(chatId, userId), text, None, upstream);
    Outcome(x.table, Chunked(x.reply, MessageLimit))
  }
}
