/**
 * `ChatClient` of src/core/chat_client.py as a class: the conversation table
 * is a map from id to `Conversation` objects that the methods update in
 * place. Every method is proved to move the abstract table `Table()` exactly
 * as the matching function of engine.dfy says, so the lemmas proved there
 * hold of the class.
 */
module Client {
  import opened Wrappers
  import opened Text
  import opened Conversations
  import opened Engine
  import opened Catalog

  class ChatClient {
    /** The model name and the default system prompt from the configuration. */
    const settings: Settings
    var conversations: map<string, Conversation>

    /** No conversation object is shared by two ids, so updating one entry
        in place never changes another. */
    ghost predicate Valid()
      reads this
    {
      forall a, b | a in conversations && b in conversations && a != b :: conversations[a] != conversations[b]
    }

    /** The value of the table: each id's history and system prompt. */
    ghost function Table(): Table
      reads this, conversations.Values
    {
      map id | id in conversations :: conversations[id].State()
    }

    /** When only the object stored under `id` changed, the table changed
        in that entry alone. */
    twostate lemma OnlyEntryChanged(id: string)
      requires old(Valid()) && conversations == old(conversations) && id in conversations
      requires forall k | k in conversations && k != id :: unchanged(conversations[k])
      ensures Valid()
      ensures Table() == old(Table())[id := conversations[id].State()]
    {
      ghost var t1 := Table();
      ghost var want := old(Table())[id := conversations[id].State()];
      assert t1.Keys == want.Keys;
      forall k | k in t1 ensures t1[k] == want[k] {
        if k != id {
          assert unchanged(conversations[k]);
        }
      }
    }

    constructor (settings: Settings)
      ensures Valid() && Table() == map[]
      ensures this.settings == settings
    {
      this.settings := settings;
      this.conversations := map[];
    }

    /** `get_or_create_conversation`: the stored object when the id is known
        (the override is ignored), else a new empty one that is stored
        under the id. */
    method GetOrCreateConversation(id: string, override: Option<string>) returns (c: Conversation)
      requires Valid()
      modifies this
      ensures Valid()
      ensures Table() == Opened(old(Table()), settings, id, override)
      ensures id in conversations && conversations[id] == c
      ensures id in old(conversations) ==> c == old(conversations[id])
      ensures id !in old(conversations) ==> fresh(c)
      ensures conversations.Keys == old(conversations.Keys) + {id}
      ensures forall k | k in old(conversations) :: conversations[k] == old(conversations[k])
    {
      if id !in conversations {
        ghost var t0 := Table();
        c := new Conversation(InitialPrompt(override, settings.defaultSystemPrompt));
        conversations := conversations[id := c];
        ghost var t1 := Table();
        ghost var want := t0[id := c.State()];
        assert t1.Keys == want.Keys;
        assert forall k | k in t1 :: t1[k] == want[k] by {
          forall k | k in t1 ensures t1[k] == want[k] {
            if k != id { assert conversations[k] == old(conversations[k]); }
          }
        }
        assert t1 == want;
      } else {
        c := conversations[id];
      }
    }

    /** `set_system_prompt`: opens the conversation, then replaces its prompt. */
    method SetSystemPrompt(id: string, prompt: string)
      requires Valid()
      modifies this, conversations.Values
      ensures Valid()
      ensures Table() == WithSystemPrompt(old(Table()), settings, id, prompt)
    {
      var c := GetOrCreateConversation(id, None);
      label found:
      c.systemPrompt := prompt;
      OnlyEntryChanged@found(id);
    }

    /** The shared start of `chat` and `chat_stream`: open the conversation,
        append the user message, and serialise the result. */
    method Begin(id: string, userMessage: string, override: Option<string>, stream: bool)
      returns (c: Conversation, request: Request)
      requires Valid()
      modifies this, conversations.Values
      ensures Valid()
      ensures Table() == WithUserMessage(old(Table()), settings, id, userMessage, override)
      ensures id in conversations && conversations[id] == c
      ensures id in old(conversations) ==> c == old(conversations[id])
      ensures id !in old(conversations) ==> fresh(c)
      ensures request == RequestFor(old(Table()), settings, id, userMessage, override, stream)
    {
      c := GetOrCreateConversation(id, override);
      Append(c, id, User, userMessage);
      var entries := c.ToOpenAIFormat();
      request := Request(settings.model, entries, stream);
    }

    /** `add_message(role, text)` on the stored conversation `c` of `id`:
        that id's history grows by one message, nothing else changes. */
    method Append(c: Conversation, id: string, role: Role, text: string)
      requires Valid() && id in conversations && conversations[id] == c
      modifies c
      ensures Valid() && conversations == old(conversations)
      ensures Table() == old(Table())[id := old(Table())[id].(messages := old(Table())[id].messages + [Message(role, text)])]
    {
      c.AddMessage(role, text);
      OnlyEntryChanged(id);
    }

    /** `chat`: the request sent and the text returned, with the table moved
        as `ChatStep` says. */
    method Chat(id: string, userMessage: string, override: Option<string>, upstream: Upstream)
      returns (reply: string, request: Request)
      requires Valid()
      modifies this, conversations.Values
      ensures Valid()
      ensures var x := ChatStep(old(Table()), settings, id, userMessage, override, upstream);
              Table() == x.table && reply == x.reply && request == x.request
    {
      ghost var x := ChatStep(Table(), settings, id, userMessage, override, upstream);
      var c;
      c, request := Begin(id, userMessage, override, false);
      ghost var t1 := Table();
      assert t1 == WithUserMessage(old(Table()), settings, id, userMessage, override);
      match upstream {
        case Answered(content) =>
          Append(c, id, Assistant, content);
          assert Table() == x.table;
          reply := content;
        case Rejected(status, body, text) =>
          reply := ApiError(status, body, text);
        case Failed(description) =>
          reply := ErrorPrefix + description;
      }
    }

    /** The loop of `chat_stream` over the response lines: only `data: `
        lines count, `[DONE]` ends it, a payload that is not JSON is skipped,
        a mis-shaped chunk ends it with an error, and non-empty delta texts
        are yielded while `full` keeps their concatenation. When the lines
        run out, the error is whatever the line iterator raised. */
    method ReadStream(body: StreamBody, decode: string -> Chunk)
      returns (fragments: seq<string>, full: string, error: Option<string>)
      ensures Scan(fragments, error) == ScanLines(body.lines, decode, body.failure)
      ensures full == Concat(fragments)
    {
      ghost var total := ScanLines(body.lines, decode, body.failure);
      var lines := body.lines;
      full := "";
      fragments := [];
      error := None;
      var stopped := false;
      var i := 0;
      while i < |lines| && !stopped
        invariant 0 <= i <= |lines|
        invariant full == Concat(fragments)
        invariant !stopped ==>
                    var s := ScanLines(lines[i..], decode, body.failure);
                    fragments + s.fragments == total.fragments && s.error == total.error
        invariant !stopped ==> error.None?
        invariant stopped ==> fragments == total.fragments && error == total.error
        decreases |lines| - i, if stopped then 0 else 1
      {
        var line := lines[i];
        assert lines[i..][0] == line && lines[i..][1..] == lines[i + 1..];
        ghost var here := ScanLines(lines[i..], decode, body.failure);
        ghost var next := ScanLines(lines[i + 1..], decode, body.failure);
        if StartsWith(line, DataPrefix) {
          var data := line[|DataPrefix|..];
          if data == DoneMarker {
            assert here == Scan([], None);
            assert fragments == fragments + here.fragments;
            stopped := true;
          } else {
            match decode(data) {
              case NotJson =>
                assert here == next;
              case Malformed(description) =>
                assert here == Scan([], Some(description));
                assert fragments == fragments + here.fragments;
                error := Some(description);
                stopped := true;
              case Delta(content) =>
                if content != "" {
                  assert here == Scan([content] + next.fragments, next.error);
                  assert (fragments + [content]) + next.fragments == fragments + here.fragments;
                  ConcatAppend(fragments, [content]);
                  assert Concat([content]) == content + Concat([]);
                  full := full + content;
                  fragments := fragments + [content];
                } else {
                  assert here == next;
                }
            }
          }
        } else {
          assert here == next;
        }
        if !stopped {
          i := i + 1;
        }
      }
      if !stopped {
        error := body.failure;
        assert lines[i..] == [];
      }
    }

    /** `chat_stream`: the fragments yielded, in order, and the request sent,
        with the table moved as `StreamStep` says. */
    method ChatStream(id: string, userMessage: string, override: Option<string>,
                      body: StreamBody, decode: string -> Chunk)
      returns (fragments: seq<string>, request: Request)
      requires Valid()
      modifies this, conversations.Values
      ensures Valid()
      ensures var x := StreamStep(old(Table()), settings, id, userMessage, override, body, decode);
              Table() == x.table && fragments == x.fragments && request == x.request
    {
      ghost var x := StreamStep(Table(), settings, id, userMessage, override, body, decode);
      var c;
      c, request := Begin(id, userMessage, override, true);
      ghost var t1 := Table();
      assert t1 == WithUserMessage(old(Table()), settings, id, userMessage, override);
      var full, error;
      fragments, full, error := ReadStream(body, decode);
      match error {
        case None =>
          Append(c, id, Assistant, full);
          assert Table() == x.table;
        case Some(e) =>
          fragments := fragments + [ErrorPrefix + e];
      }
    }

    /** `clear_conversation`: empties the history in place when the id is known. */
    method ClearConversation(id: string)
      requires Valid()
      modifies conversations.Values
      ensures Valid()
      ensures Table() == Cleared(old(Table()), id)
    {
      if id in conversations {
        conversations[id].Clear();
        OnlyEntryChanged(id);
      }
    }

    /** `delete_conversation`: drops the key when it is present. */
    method DeleteConversation(id: string)
      requires Valid()
      modifies this
      ensures Valid()
      ensures Table() == Deleted(old(Table()), id)
    {
      if id in conversations {
        conversations := conversations - {id};
      }
    }

    /** `load_flowgpt_prompt`: finds the entry by id, then takes its system text. */
    method LoadFlowGPTPrompt(promptId: string, catalog: SearchRequest -> CatalogReply) returns (r: Option<string>)
      ensures r == LoadedPrompt(promptId, catalog)
      ensures r.Some? ==> exists p :: p in SearchByQuery(promptId, catalog) && HasId(p, promptId) && SystemText(p) == r
    {
      var prompt := GetPromptById(promptId, catalog);
      match prompt {
        case Some(p) => r := SystemText(p);
        case None => r := None;
      }
    }

    /** `search_flowgpt_prompts`: a search on the query alone. */
    method SearchFlowGPTPrompts(query: string, catalog: SearchRequest -> CatalogReply) returns (r: seq<Prompt>)
      ensures r == SearchPrompts(query, None, None, "en", catalog)
    {
      r := SearchByQuery(query, catalog);
    }
  }
}
