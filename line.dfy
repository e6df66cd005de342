/**
 * The decisions of the LINE bot (src/services/line/bot.py): the text
 * message handler with its `/` command dispatch, the chat path with its
 * 5000-character cut, and the follow and unfollow handlers, each as a
 * function from its input and the conversation table to the new table and
 * what is sent: replies on the event's reply token, or push messages to
 * the user.
 */
module Line {
  import opened Wrappers
  import opened Text
  import opened Conversations
  import opened Engine
  import opened Catalog
  import opened Replies

  const Prefix := "line_"
  const DefaultSource := "user"
  const MessageLimit := 5000

  /** `_get_conversation_id(user_id, source_type="user")`. */
  function ConversationId(userId: string, sourceType: string): string {
    PairId(Prefix, sourceType, userId)
  }

  datatype Send = Reply(text: string) | Push(to: string, text: string)

  const HelpText := "FlowGPT Bot Commands:\n\n"
    + "/help - Show this help message\n"
    + "/clear - Clear conversation history\n"
    + "/prompt <text> - Set custom system prompt\n"
    + "/search <query> - Search FlowGPT prompts\n"
    + "/load <prompt_id> - Load a FlowGPT prompt\n\n"
    + "Just send a message to chat with the AI!"

  const WelcomeText := "Welcome to FlowGPT Bot!\n\n"
    + "I'm an AI assistant powered by FlowGPT prompts.\n\n"
    + "Commands:\n"
    + "/help - Show help\n"
    + "/clear - Clear history\n"
    + "/prompt <text> - Set prompt\n"
    + "/search <query> - Search prompts\n"
    + "/load <id> - Load prompt\n\n"
    + "Just send a message to start chatting!"

  const ClearedText := "Conversation history cleared!"
  const PromptUsage := "Please provide a system prompt.\nUsage: /prompt <your prompt>"
  const SearchUsage := "Please provide a search query.\nUsage: /search <query>"
  const LoadUsage := "Please provide a prompt ID.\nUsage: /load <prompt_id>"
  const PromptUpdated := "System prompt updated!\n\nNew prompt: "
  const NoPrompts := "No prompts found."
  const ListingHeader := "Found prompts:\n\n"
  const ListingFooter := "Use /load <prompt_id> to load a prompt."
  const LoadedText := "Prompt loaded successfully!\n\nPreview: "
  const LoadFailed := "Could not load the prompt. Please check the ID and try again."
  const PreviewCut := 100
  const LoadPreviewCut := 150
  const DescriptionCut := 80

  /** A command line after the `/`: the command word, lower-cased, and the
      rest of the line (`""` when there is none). */
  datatype Command = Command(name: string, args: string)

  /** `parts = text[1:].split(maxsplit=1)`, `parts[0].lower()`, and
      `parts[1]` or `""`. When nothing but whitespace follows the `/`,
      `parts` is empty and `parts[0]` raises `IndexError`: `None`. */
  function ParseCommand(text: string): (r: Option<Command>)
    requires StartsWith(text, "/")
    ensures r.None? <==> AllSpace(text[1..])
    ensures r.Some? ==>
              var parts := SplitOnce(text[1..]);
              r.value.name == Lower(parts[0]) && |r.value.name| == |parts[0]|
              && (r.value.args == "" <==> |parts| == 1)
              && (|parts| == 2 ==> r.value.args == parts[1])
  {
    var parts := SplitOnce(text[1..]);
    if parts == [] then None
    else Some(Command(Lower(parts[0]), if |parts| > 1 then parts[1] else ""))
  }

  /** One listed result: `"{i}. {title}\nID: {id}\n{description}...\n\n"`. */
  function EntryText(l: Listed): string {
    NatToString(l.number) + ". " + l.title + "\nID: " + l.id + "\n" + l.description + "...\n\n"
  }

  /** The text of a non-empty result list: header, at most five entries,
      footer; the loop `Replies.BuildListing` builds it from these texts. */
  function SearchText(prompts: seq<Prompt>): string {
    ListingHeader + Concat(Rendered(Listing(prompts, DescriptionCut), EntryText)) + ListingFooter
  }

  /** `/prompt text`: usage without text; otherwise the text becomes the
      prompt, the history is cleared, and a 100-character preview is sent. */
  function PromptCommand(t: Table, cfg: Settings, args: string, id: string): (o: Outcome<Send>)
    ensures args == "" ==> o == Outcome(t, [Reply(PromptUsage)])
    ensures args != "" ==>
              o.table.Keys == t.Keys + {id} && o.table[id] == ConvState([], args)
              && (forall k | k in t && k != id :: o.table[k] == t[k])
              && o.sends == [Reply(PromptUpdated + Preview(args, PreviewCut))]
  {
    if args == "" then Outcome(t, [Reply(PromptUsage)])
    else Outcome(SetThenClear(t, cfg, id, args), [Reply(PromptUpdated + Preview(args, PreviewCut))])
  }

  /** `/search query`: never touches the table. Usage without a query;
      otherwise a "Searching for" reply, then the listing or "no prompts"
      pushed to the user. */
  function SearchCommand(t: Table, args: string, userId: string,
                         catalog: SearchRequest -> CatalogReply): (o: Outcome<Send>)
    ensures o.table == t
    ensures args == "" ==> o.sends == [Reply(SearchUsage)]
    ensures args != "" ==>
              var prompts := SearchByQuery(args, catalog);
              o.sends == [Reply("Searching for: " + args + "..."),
                          Push(userId, if prompts == [] then NoPrompts else SearchText(prompts))]
  {
    if args == "" then Outcome(t, [Reply(SearchUsage)])
    else
      var prompts := SearchByQuery(args, catalog);
      Outcome(t, [Reply("Searching for: " + args + "..."),
                  Push(userId, if prompts == [] then NoPrompts else SearchText(prompts))])
  }

  /** `/load id`: usage without an id; otherwise a "Loading" reply, then a
      usable loaded prompt is set and the history cleared, with a
      150-character preview pushed; when nothing usable is loaded the table
      is untouched and the failure text is pushed. */
  function LoadCommand(t: Table, cfg: Settings, args: string, id: string, userId: string,
                       catalog: SearchRequest -> CatalogReply): (o: Outcome<Send>)
    ensures args == "" ==> o == Outcome(t, [Reply(LoadUsage)])
    ensures args != "" ==>
              var loaded := LoadedPrompt(args, catalog);
              |o.sends| == 2 && o.sends[0] == Reply("Loading prompt: " + args + "...")
              && if Usable(loaded) then
                   o.table.Keys == t.Keys + {id} && o.table[id] == ConvState([], loaded.value)
                   && (forall k | k in t && k != id :: o.table[k] == t[k])
                   && o.sends[1] == Push(userId, LoadedText + Preview(loaded.value, LoadPreviewCut))
                 else
                   o.table == t && o.sends[1] == Push(userId, LoadFailed)
  {
    if args == "" then Outcome(t, [Reply(LoadUsage)])
    else
      var notice := Reply("Loading prompt: " + args + "...");
      var loaded := LoadedPrompt(args, catalog);
      if Usable(loaded) then
        Outcome(SetThenClear(t, cfg, id, loaded.value),
                [notice, Push(userId, LoadedText + Preview(loaded.value, LoadPreviewCut))])
      else Outcome(t, [notice, Push(userId, LoadFailed)])
  }

  /** `_handle_command` for a parsed command line: help and clear answer
      directly, prompt, search and load are their own functions, and any
      other name is reported as unknown. Only clear, prompt and load can
      change the table. */
  function RunCommand(t: Table, cfg: Settings, c: Command, id: string, userId: string,
                      catalog: SearchRequest -> CatalogReply): (o: Outcome<Send>)
    ensures c.name == "help" ==> o == Outcome(t, [Reply(HelpText)])
    ensures c.name == "clear" ==> o == Outcome(Cleared(t, id), [Reply(ClearedText)])
    ensures c.name == "prompt" ==> o == PromptCommand(t, cfg, c.args, id)
    ensures c.name == "search" ==> o == SearchCommand(t, c.args, userId, catalog)
    ensures c.name == "load" ==> o == LoadCommand(t, cfg, c.args, id, userId, catalog)
    ensures c.name != "clear" && c.name != "prompt" && c.name != "load" ==> o.table == t
    ensures c.name != "help" && c.name != "clear" && c.name != "prompt" && c.name != "search" && c.name != "load" ==>
              o == Outcome(t, [Reply("Unknown command: /" + c.name + "\nUse /help for available commands.")])
  {
    if c.name == "help" then Outcome(t, [Reply(HelpText)])
    else if c.name == "clear" then Outcome(Cleared(t, id), [Reply(ClearedText)])
    else if c.name == "prompt" then PromptCommand(t, cfg, c.args, id)
    else if c.name == "search" then SearchCommand(t, c.args, userId, catalog)
    else if c.name == "load" then LoadCommand(t, cfg, c.args, id, userId, catalog)
    else Outcome(t, [Reply("Unknown command: /" + c.name + "\nUse /help for available commands.")])
  }

  /** `_handle_chat`'s cut: a reply over 5000 characters becomes its first
      4997 characters and `...`, exactly 5000 in all. */
  function Truncated(s: string): (r: string)
    ensures |r| <= MessageLimit
    ensures |s| <= MessageLimit ==> r == s
    ensures |s| > MessageLimit ==> |r| == MessageLimit && r[..MessageLimit - 3] == s[..MessageLimit - 3]
                                   && r[MessageLimit - 3..] == Ellipsis
  {
    if |s| > MessageLimit then s[..MessageLimit - 3] + Ellipsis else s
  }

  /** `_handle_text_message_async`: the text is stripped; a text starting
      with `/` is a command, anything else (the empty text too) is a chat
      turn whose reply is cut to fit. A `/` with nothing after it raises
      before anything is sent or changed. */
  function HandleText(t: Table, cfg: Settings, userId: string, sourceType: string, raw: string,
                      upstream: Upstream, catalog: SearchRequest -> CatalogReply): (o: Outcome<Send>)
    ensures var text := Strip(raw);
            var id := ConversationId(userId, sourceType);
            if StartsWith(text, "/") then
              match ParseCommand(text)
              case None => o == Outcome(t, [])
              case Some(c) => o == RunCommand(t, cfg, c, id, userId, catalog)
            else
              var x := ChatStep(t, cfg, id, text, None, upstream);
              o.table == x.table && o.sends == [Reply(Truncated(x.reply))]
  {
    var text := Strip(raw);
    var id := ConversationId(userId, sourceType);
    if StartsWith(text, "/") then
      match ParseCommand(text)
      case None => Outcome(t, [])
      case Some(c) => RunCommand(t, cfg, c, id, userId, catalog)
    else
      var x := ChatStep(t, cfg, id, text, None, upstream);
      Outcome(x.table, [Reply(Truncated(x.reply))])
  }

  /** A `/`, one word, and then whitespace or nothing is that command,
      lower-cased; its arguments are what follows from the next non-space
      character on, or none when only whitespace follows. */
  lemma CommandAfterWord(w: string, rest: string)
    requires w != [] && NoSpace(w) && (rest == [] || IsSpace(rest[0]))
    ensures ParseCommand("/" + w + rest)
              == Some(Command(Lower(w), if AllSpace(rest) then "" else TrimStart(rest)))
  {
    assert "/" + w + rest == "/" + (w + rest);
    ParseAfterSlash(w + rest);
    SplitOnceAfterWord(w, rest);
  }

  /** What follows the `/` is split once; its parts make the command. */
  lemma ParseAfterSlash(u: string)
    ensures var parts := SplitOnce(u);
            ParseCommand("/" + u)
              == if parts == [] then None
                 else Some(Command(Lower(parts[0]), if |parts| > 1 then parts[1] else ""))
  {
    assert ("/" + u)[..1] == "/";
    assert ("/" + u)[1..] == u;
  }

  /** A `/` followed by one word and nothing else is that command, lower-
      cased, with no arguments. */
  lemma BareCommand(w: string)
    requires w != [] && NoSpace(w)
    ensures ParseCommand("/" + w) == Some(Command(Lower(w), ""))
  {
    CommandAfterWord(w, []);
    assert "/" + w + [] == "/" + w;
  }

  /** The command word is matched without regard to ASCII case: any word
      and its lower-cased spelling are the same command with the same
      arguments, whatever follows the word. */
  lemma CommandIsCaseInsensitive(w: string, rest: string)
    requires w != [] && NoSpace(w) && (rest == [] || IsSpace(rest[0]))
    ensures ParseCommand("/" + w + rest) == ParseCommand("/" + Lower(w) + rest)
  {
    LowerKeepsNoSpace(w);
    LowerIdempotent(w);
    CommandAfterWord(w, rest);
    CommandAfterWord(Lower(w), rest);
  }

  /** `_handle_follow_async`: the welcome text; the table is untouched. */
  function HandleFollow(t: Table): (o: Outcome<Send>)
    ensures o.table == t && o.sends == [Reply(WelcomeText)]
  {
    Outcome(t, [Reply(WelcomeText)])
  }

  /** `_handle_unfollow_async`: deletes the user's one-to-one conversation
      `line_user_<id>`; nothing is sent. */
  function HandleUnfollow(t: Table, userId: string): (o: Outcome<Send>)
    ensures o.table.Keys == t.Keys - {"line_user_" + userId}
    ensures forall k | k in o.table :: o.table[k] == t[k]
    ensures o.sends == []
  {
    assert ConversationId(userId, DefaultSource) == "line_user_" + userId;
    Outcome(Deleted(t, ConversationId(userId, DefaultSource)), [])
  }

  /** Unfollowing leaves the user's conversations from groups and rooms in
      place: the id is built with the default source type, not the one the
      chats used. */
  lemma UnfollowKeepsOtherSources(t: Table, userId: string, sourceType: string)
    requires NoUnderscore(sourceType) && sourceType != DefaultSource
    requires ConversationId(userId, sourceType) in t
    ensures var o := HandleUnfollow(t, userId);
            ConversationId(userId, sourceType) in o.table
            && o.table[ConversationId(userId, sourceType)] == t[ConversationId(userId, sourceType)]
  {
    if ConversationId(userId, sourceType) == ConversationId(userId, DefaultSource) {
      PairIdInjective(Prefix, sourceType, userId, DefaultSource, userId);
    }
  }
}
