/**
 * The conversation table of `ChatClient` (src/core/chat_client.py) as a
 * value, and every table operation as a function on it. The class in
 * chat_client.dfy is proved to follow these functions; the platform bots
 * are written against them.
 *
 * The completion API is an input: `Upstream` is what the buffered request
 * comes back with, and a stream is the list of lines the response delivers
 * (`StreamBody`) together with `decode`, the outcome of `json.loads` on a
 * payload and of reading `choices[0].delta.content` from it.
 */
module Engine {
  import opened Wrappers
  import opened Text
  import opened Conversations

  /** `ChatClient.conversations`: conversation id to conversation. */
  type Table = map<string, ConvState>

  /** The configuration a `ChatClient` is built with that the model uses. */
  datatype Settings = Settings(model: string, defaultSystemPrompt: string)

  /** The JSON body posted to `/chat/completions` (token limit and
      temperature are opaque pass-through values and are not modelled). */
  datatype Request = Request(model: string, messages: seq<Entry>, stream: bool)

  /** The history stored under `id`, empty when there is no such conversation. */
  function History(t: Table, id: string): seq<Message> {
    if id in t then t[id].messages else []
  }

  /** `system_prompt or default`: an absent or empty override gives the default. */
  function InitialPrompt(override: Option<string>, default: string): string {
    if override.Some? && override.value != "" then override.value else default
  }

  /** The system prompt a conversation has once `get_or_create_conversation` ran:
      the stored one, or for a new conversation the initial one. */
  function PromptAfterOpen(t: Table, cfg: Settings, id: string, override: Option<string>): string {
    if id in t then t[id].systemPrompt else InitialPrompt(override, cfg.defaultSystemPrompt)
  }

  /** `get_or_create_conversation`: an existing conversation is returned as it
      is and the override is ignored; a new one starts empty with the
      override when it is non-empty, else the configured default. No other
      entry is touched. */
  function Opened(t: Table, cfg: Settings, id: string, override: Option<string>): (r: Table)
    ensures r.Keys == t.Keys + {id}
    ensures forall k | k in t :: r[k] == t[k]
    ensures id !in t ==> r[id] == ConvState([], InitialPrompt(override, cfg.defaultSystemPrompt))
    ensures r[id] == ConvState(History(t, id), PromptAfterOpen(t, cfg, id, override))
  {
    if id in t then t else t[id := ConvState([], InitialPrompt(override, cfg.defaultSystemPrompt))]
  }

  /** `set_system_prompt`: creates the conversation if absent, then replaces
      only its system prompt; its history and every other entry are kept. */
  function WithSystemPrompt(t: Table, cfg: Settings, id: string, prompt: string): (r: Table)
    ensures r.Keys == t.Keys + {id}
    ensures forall k | k in t && k != id :: r[k] == t[k]
    ensures r[id] == ConvState(History(t, id), prompt)
  {
    var t0 := Opened(t, cfg, id, None);
    t0[id := t0[id].(systemPrompt := prompt)]
  }

  /** `clear_conversation`: empties the history of `id` and keeps its system
      prompt; a no-op for an unknown id; other entries are kept. */
  function Cleared(t: Table, id: string): (r: Table)
    ensures r.Keys == t.Keys
    ensures forall k | k in t && k != id :: r[k] == t[k]
    ensures id in t ==> r[id] == ConvState([], t[id].systemPrompt)
    ensures id !in t ==> r == t
  {
    if id in t then t[id := ConvState([], t[id].systemPrompt)] else t
  }

  /** `delete_conversation`: removes exactly the key `id`, if present. */
  function Deleted(t: Table, id: string): (r: Table)
    ensures r.Keys == t.Keys - {id}
    ensures forall k | k in r :: r[k] == t[k]
  {
    t - {id}
  }

  /** The first two steps shared by `chat` and `chat_stream`: open the
      conversation and append the user message. */
  function WithUserMessage(t: Table, cfg: Settings, id: string, userMessage: string, override: Option<string>): (r: Table)
    ensures r.Keys == t.Keys + {id}
    ensures forall k | k in t && k != id :: r[k] == t[k]
    ensures r[id] == ConvState(History(t, id) + [Message(User, userMessage)], PromptAfterOpen(t, cfg, id, override))
  {
    var t0 := Opened(t, cfg, id, override);
    t0[id := t0[id].(messages := t0[id].messages + [Message(User, userMessage)])]
  }

  /** A table that agrees with `t` away from `id`, and holds `id`, is `t`
      with only that entry replaced or added. */
  lemma AgreesAwayFrom(r: Table, t: Table, id: string, v: ConvState)
    requires r.Keys == t.Keys + {id} && forall k | k in t && k != id :: r[k] == t[k]
    ensures r[id := v] - {id} == t - {id}
  {
    var a := r[id := v] - {id};
    var b := t - {id};
    assert a.Keys == b.Keys;
    forall k | k in a ensures a[k] == b[k] {
      assert k != id && k in t;
    }
  }

  /** The request both paths send: the conversation serialised after the
      user message was appended. */
  function RequestFor(t: Table, cfg: Settings, id: string, userMessage: string, override: Option<string>, stream: bool): (r: Request)
    ensures r.model == cfg.model && r.stream == stream
    ensures |r.messages| > 0 && r.messages[|r.messages| - 1] == Entry("user", userMessage)
  {
    var m := Message(User, userMessage);
    var c := WithUserMessage(t, cfg, id, userMessage, override)[id];
    assert c.messages == History(t, id) + [m];
    assert c.messages[|c.messages| - 1] == m;
    SerializeEndsWithLast(c);
    assert EntryOf(m) == Entry("user", userMessage);
    Request(cfg.model, Serialize(c), stream)
  }

  // ---------------------------------------------------------------- chat

  /** What an `httpx.HTTPStatusError`'s response body yields for the message:
      not JSON (or not shaped as objects), `{"error": {"message": m}}`, or an
      object without that message. */
  datatype ErrorBody = Unreadable | WithMessage(message: string) | WithoutMessage

  /** The outcome of the buffered completion request. `Rejected` is an error
      status (`text` is `str(e)` of the status error); `Failed` is any other
      exception: transport failure, undecodable body, or a reply without
      `choices[0].message.content`. A `null` content is not represented. */
  datatype Upstream =
    | Answered(content: string)
    | Rejected(status: nat, body: ErrorBody, text: string)
    | Failed(description: string)

  const ApiErrorPrefix := "API error: "
  const ErrorPrefix := "Error: "

  /** `chat`'s message for an error status: the upstream's error message,
      else `str(e)`, else (body unreadable) the status code. */
  function ApiError(status: nat, body: ErrorBody, text: string): (s: string)
    ensures StartsWith(s, ApiErrorPrefix)
  {
    ApiErrorPrefix + match body
      case Unreadable => NatToString(status)
      case WithMessage(m) => m
      case WithoutMessage => text
  }

  datatype Exchange = Exchange(table: Table, request: Request, reply: string)

  /** `chat`: the user message is appended before the request, whatever the
      outcome. On an answer the reply is appended too and returned; on an
      error status the result starts with `API error: `, on any other failure
      with `Error: `, and no assistant message is stored. Only `id` changes. */
  function ChatStep(t: Table, cfg: Settings, id: string, userMessage: string, override: Option<string>,
                    upstream: Upstream): (x: Exchange)
    ensures x.request == RequestFor(t, cfg, id, userMessage, override, false)
    ensures id in x.table && x.table - {id} == t - {id}
    ensures x.table[id].systemPrompt == PromptAfterOpen(t, cfg, id, override)
    ensures upstream.Answered? ==>
              x.reply == upstream.content &&
              x.table[id].messages == History(t, id) + [Message(User, userMessage), Message(Assistant, upstream.content)]
    ensures !upstream.Answered? ==> x.table[id].messages == History(t, id) + [Message(User, userMessage)]
    ensures upstream.Rejected? ==> StartsWith(x.reply, ApiErrorPrefix)
    ensures upstream.Failed? ==> StartsWith(x.reply, ErrorPrefix)
  {
    var t1 := WithUserMessage(t, cfg, id, userMessage, override);
    var request := RequestFor(t, cfg, id, userMessage, override, false);
    AgreesAwayFrom(t1, t, id, t1[id]);
    assert t1[id := t1[id]] == t1;
    match upstream
    case Answered(content) =>
      var c := t1[id].(messages := t1[id].messages + [Message(Assistant, content)]);
      AgreesAwayFrom(t1, t, id, c);
      Exchange(t1[id := c], request, content)
    case Rejected(status, body, text) =>
      Exchange(t1, request, ApiError(status, body, text))
    case Failed(description) =>
      Exchange(t1, request, ErrorPrefix + description)
  }

  // ----------------------------------------------------------- chat_stream

  /** What one `data: ` payload yields: `json.loads` raised (skipped), the
      chunk lacks `choices[0]` or is mis-shaped so that reading it raises
      (ends the stream with an error; so does a `null` delta, whose
      `.get` raises), or it carries a delta text (`""` when the delta or its
      content is absent, or the content is `null`). */
  datatype Chunk = NotJson | Malformed(description: string) | Delta(content: string)

  /** The lines `aiter_lines` delivers, and, when it raises after the last
      of them, the exception's text. An error status or a transport failure
      is `StreamBody([], Some(...))`. */
  datatype StreamBody = StreamBody(lines: seq<string>, failure: Option<string>)

  const DataPrefix := "data: "
  const DoneMarker := "[DONE]"

  /** The fragments the scan yields, and the error that ended it, if any. */
  datatype Scan = Scan(fragments: seq<string>, error: Option<string>)

  /** A line the scan passes over without effect. */
  predicate Inert(line: string, decode: string -> Chunk) {
    !StartsWith(line, DataPrefix)
    || (line[|DataPrefix|..] != DoneMarker && decode(line[|DataPrefix|..]) in {NotJson, Delta("")})
  }

  /** The loop of `chat_stream` over the remaining lines: only `data: ` lines
      count, `[DONE]` ends the scan (and nothing after it is read), payloads
      that are not JSON are skipped, a mis-shaped chunk raises, and empty
      delta texts are not yielded. `failure` is what the line iterator raises
      once the lines run out. */
  function ScanLines(lines: seq<string>, decode: string -> Chunk, failure: Option<string>): (s: Scan)
    ensures forall i | 0 <= i < |s.fragments| :: s.fragments[i] != ""
    decreases |lines|
  {
    if lines == [] then Scan([], failure)
    else
      var rest := lines[1..];
      if !StartsWith(lines[0], DataPrefix) then ScanLines(rest, decode, failure)
      else
        var data := lines[0][|DataPrefix|..];
        if data == DoneMarker then Scan([], None)
        else match decode(data)
          case NotJson => ScanLines(rest, decode, failure)
          case Malformed(description) => Scan([], Some(description))
          case Delta(content) =>
            var s := ScanLines(rest, decode, failure);
            if content != "" then Scan([content] + s.fragments, s.error) else s
  }

  datatype StreamExchange = StreamExchange(table: Table, request: Request, fragments: seq<string>)

  /** `chat_stream`: the same setup and request as `chat` (with `stream`
      set). When the scan ends normally the fragments are yielded and their
      concatenation is stored as one assistant message (even if empty, and
      whether or not `[DONE]` came); when anything raised, one final
      `Error: ...` fragment follows what was already yielded and no assistant
      message is stored. */
  function StreamStep(t: Table, cfg: Settings, id: string, userMessage: string, override: Option<string>,
                      body: StreamBody, decode: string -> Chunk): (x: StreamExchange)
    ensures x.request == RequestFor(t, cfg, id, userMessage, override, true)
    ensures id in x.table && x.table - {id} == t - {id}
    ensures x.table[id].systemPrompt == PromptAfterOpen(t, cfg, id, override)
    ensures var s := ScanLines(body.lines, decode, body.failure);
            s.error.None? ==>
              x.fragments == s.fragments &&
              x.table[id].messages == History(t, id) + [Message(User, userMessage), Message(Assistant, Concat(x.fragments))]
    ensures var s := ScanLines(body.lines, decode, body.failure);
            s.error.Some? ==>
              x.fragments == s.fragments + [ErrorPrefix + s.error.value] &&
              x.table[id].messages == History(t, id) + [Message(User, userMessage)]
  {
    var t1 := WithUserMessage(t, cfg, id, userMessage, override);
    var request := RequestFor(t, cfg, id, userMessage, override, true);
    var s := ScanLines(body.lines, decode, body.failure);
    AgreesAwayFrom(t1, t, id, t1[id]);
    assert t1[id := t1[id]] == t1;
    match s.error
    case None =>
      var c := t1[id].(messages := t1[id].messages + [Message(Assistant, Concat(s.fragments))]);
      AgreesAwayFrom(t1, t, id, c);
      StreamExchange(t1[id := c], request, s.fragments)
    case Some(e) =>
      StreamExchange(t1, request, s.fragments + [ErrorPrefix + e])
  }

  // -------------------------------------------------------------- lemmas

  /** Switching between `chat` and `chat_stream` never changes what the model
      is sent: the message lists are identical. */
  lemma SameRequestBothWays(t: Table, cfg: Settings, id: string, m: string, override: Option<string>,
                            upstream: Upstream, body: StreamBody, decode: string -> Chunk)
    ensures ChatStep(t, cfg, id, m, override, upstream).request.messages
         == StreamStep(t, cfg, id, m, override, body, decode).request.messages
  {
  }

  /** A line with no effect can be dropped from anywhere in the stream. */
  lemma {:induction false} ScanSkipsInert(pre: seq<string>, line: string, post: seq<string>,
                                         decode: string -> Chunk, failure: Option<string>)
    requires Inert(line, decode)
    ensures ScanLines(pre + [line] + post, decode, failure) == ScanLines(pre + post, decode, failure)
    decreases |pre|
  {
    if pre == [] {
      assert pre + [line] + post == [line] + post;
      assert ([line] + post)[1..] == post;
      assert pre + post == post;
    } else {
      assert (pre + [line] + post)[1..] == pre[1..] + [line] + post;
      assert (pre + post)[1..] == pre[1..] + post;
      assert (pre + [line] + post)[0] == pre[0] == (pre + post)[0];
      ScanSkipsInert(pre[1..], line, post, decode, failure);
    }
  }

  /** Nothing after `data: [DONE]` is read: neither later lines nor a later
      failure of the line iterator. */
  lemma {:induction false} ScanStopsAtDone(pre: seq<string>, post: seq<string>,
                                          decode: string -> Chunk, failure: Option<string>)
    ensures ScanLines(pre + [DataPrefix + DoneMarker] + post, decode, failure)
         == ScanLines(pre + [DataPrefix + DoneMarker], decode, None)
    decreases |pre|
  {
    var done := DataPrefix + DoneMarker;
    assert done[|DataPrefix|..] == DoneMarker;
    assert StartsWith(done, DataPrefix);
    if pre == [] {
      assert pre + [done] + post == [done] + post;
      assert pre + [done] == [done];
    } else {
      assert (pre + [done] + post)[1..] == pre[1..] + [done] + post;
      assert (pre + [done])[1..] == pre[1..] + [done];
      assert (pre + [done] + post)[0] == pre[0] == (pre + [done])[0];
      ScanStopsAtDone(pre[1..], post, decode, failure);
    }
  }

  /** A stream made only of delta chunks yields exactly their non-empty texts. */
  function NonEmpty(ss: seq<string>): seq<string> {
    if ss == [] then [] else (if ss[0] != "" then [ss[0]] else []) + NonEmpty(ss[1..])
  }

  /** Delta payloads in front of any further lines yield their non-empty
      texts, then whatever the further lines yield, ending as those do. */
  lemma {:induction false} ScanAfterDeltas(payloads: seq<string>, contents: seq<string>, rest: seq<string>,
                                           decode: string -> Chunk, failure: Option<string>)
    requires |payloads| == |contents|
    requires forall i | 0 <= i < |payloads| :: payloads[i] != DoneMarker && decode(payloads[i]) == Delta(contents[i])
    ensures var tail := ScanLines(rest, decode, failure);
            ScanLines(DataLines(payloads) + rest, decode, failure)
              == Scan(NonEmpty(contents) + tail.fragments, tail.error)
  {
    if payloads == [] {
      assert DataLines(payloads) + rest == rest;
    } else {
      var more := DataLines(payloads[1..]) + rest;
      assert DataLines(payloads) + rest == [DataPrefix + payloads[0]] + more;
      ScanAfterDeltas(payloads[1..], contents[1..], rest, decode, failure);
      ScanDeltaLine(payloads[0], contents[0], more, decode, failure);
      var head := if contents[0] != "" then [contents[0]] else [];
      var tail := ScanLines(rest, decode, failure);
      calc {
        ScanLines(DataLines(payloads) + rest, decode, failure);
        ScanLines([DataPrefix + payloads[0]] + more, decode, failure);
        Scan(head + (NonEmpty(contents[1..]) + tail.fragments), tail.error);
        { ConcatAssociates(head, NonEmpty(contents[1..]), tail.fragments); }
        Scan(NonEmpty(contents) + tail.fragments, tail.error);
      }
    }
  }

  /** Concatenation of sequences associates. */
  lemma ConcatAssociates(a: seq<string>, b: seq<string>, c: seq<string>)
    ensures a + (b + c) == (a + b) + c
  {
  }

  /** One delta line in front of others yields its text, if not empty, then
      what the others yield. */
  lemma ScanDeltaLine(p: string, content: string, more: seq<string>, decode: string -> Chunk,
                      failure: Option<string>)
    requires p != DoneMarker && decode(p) == Delta(content)
    ensures var s := ScanLines(more, decode, failure);
            ScanLines([DataPrefix + p] + more, decode, failure)
              == Scan((if content != "" then [content] else []) + s.fragments, s.error)
  {
    var line := DataPrefix + p;
    assert line[|DataPrefix|..] == p;
    assert StartsWith(line, DataPrefix);
    assert ([line] + more)[1..] == more;
  }

  /** Payloads that each decode to a delta text, and are not the end
      marker, yield exactly the non-empty texts, in order; the stream then
      ends with the line iterator's failure, if it raised one. */
  lemma ScanOfDeltas(payloads: seq<string>, contents: seq<string>, decode: string -> Chunk,
                     failure: Option<string>)
    requires |payloads| == |contents|
    requires forall i | 0 <= i < |payloads| :: payloads[i] != DoneMarker && decode(payloads[i]) == Delta(contents[i])
    ensures ScanLines(DataLines(payloads), decode, failure) == Scan(NonEmpty(contents), failure)
  {
    ScanAfterDeltas(payloads, contents, [], decode, failure);
    assert DataLines(payloads) + [] == DataLines(payloads);
    assert NonEmpty(contents) + [] == NonEmpty(contents);
  }

  /** A mis-shaped chunk after delta chunks ends the stream with its error:
      the texts before it are yielded, and no later line or failure is read. */
  lemma ScanStopsAtMalformed(payloads: seq<string>, contents: seq<string>, p: string, description: string,
                             post: seq<string>, decode: string -> Chunk, failure: Option<string>)
    requires |payloads| == |contents|
    requires forall i | 0 <= i < |payloads| :: payloads[i] != DoneMarker && decode(payloads[i]) == Delta(contents[i])
    requires p != DoneMarker && decode(p) == Malformed(description)
    ensures ScanLines(DataLines(payloads) + ([DataPrefix + p] + post), decode, failure)
              == Scan(NonEmpty(contents), Some(description))
  {
    var rest := [DataPrefix + p] + post;
    assert rest[0][|DataPrefix|..] == p;
    assert StartsWith(rest[0], DataPrefix);
    assert ScanLines(rest, decode, failure) == Scan([], Some(description));
    ScanAfterDeltas(payloads, contents, rest, decode, failure);
    assert NonEmpty(contents) + [] == NonEmpty(contents);
  }

  /** The `data: ` line carrying each payload. */
  function DataLines(payloads: seq<string>): (lines: seq<string>)
    ensures |lines| == |payloads|
  {
    if payloads == [] then [] else [DataPrefix + payloads[0]] + DataLines(payloads[1..])
  }

  /** Clearing keeps the prompt: the next chat after `clear_conversation`
      sends the prompt that was set, not the default, and only the new message. */
  lemma ChatAfterClearKeepsPrompt(t: Table, cfg: Settings, id: string, m: string, override: Option<string>,
                                  upstream: Upstream)
    requires id in t
    ensures ChatStep(Cleared(t, id), cfg, id, m, override, upstream).request.messages
         == Serialize(ConvState([Message(User, m)], t[id].systemPrompt))
  {
  }

  /** After `delete_conversation` the id behaves as never seen: the next chat
      starts from the initial prompt and sends only the new message. */
  lemma ChatAfterDeleteIsFresh(t: Table, cfg: Settings, id: string, m: string, override: Option<string>,
                               upstream: Upstream)
    ensures var x := ChatStep(Deleted(t, id), cfg, id, m, override, upstream);
            x.request.messages == Serialize(ConvState([Message(User, m)], InitialPrompt(override, cfg.defaultSystemPrompt)))
            && x.table[id].systemPrompt == InitialPrompt(override, cfg.defaultSystemPrompt)
  {
  }

  /** The table after `chat` on the id of an existing conversation got the
      answer `a` to the user text `u`. */
  function Answer(t: Table, id: string, u: string, a: string): Table
    requires id in t
  {
    t[id := t[id].(messages := t[id].messages + [Message(User, u), Message(Assistant, a)])]
  }

  lemma AnsweredChatIsAnswer(t: Table, cfg: Settings, id: string, u: string, a: string)
    requires id in t
    ensures ChatStep(t, cfg, id, u, None, Answered(a)).table == Answer(t, id, u, a)
  {
  }

  /** A run of successful chats on one existing id, each a (user text, reply) pair. */
  function Converse(t: Table, id: string, turns: seq<(string, string)>): (r: Table)
    requires id in t
    ensures id in r
    decreases |turns|
  {
    if turns == [] then t else Converse(Answer(t, id, turns[0].0, turns[0].1), id, turns[1..])
  }

  /** The history such a run leaves: the pairs, in order. */
  function Transcript(turns: seq<(string, string)>): seq<Message> {
    if turns == [] then []
    else [Message(User, turns[0].0), Message(Assistant, turns[0].1)] + Transcript(turns[1..])
  }

  /** After successful chats the conversation holds its old history followed
      by every (user, assistant) pair in order, and keeps its system prompt. */
  lemma {:induction false} ConverseHistory(t: Table, id: string, turns: seq<(string, string)>)
    requires id in t
    ensures Converse(t, id, turns)[id] == ConvState(t[id].messages + Transcript(turns), t[id].systemPrompt)
    decreases |turns|
  {
    if turns != [] {
      var pair := [Message(User, turns[0].0), Message(Assistant, turns[0].1)];
      ConverseHistory(Answer(t, id, turns[0].0, turns[0].1), id, turns[1..]);
      assert Transcript(turns) == pair + Transcript(turns[1..]);
      assert (t[id].messages + pair) + Transcript(turns[1..]) == t[id].messages + Transcript(turns);
    } else {
      assert Transcript(turns) == [];
      assert t[id].messages + [] == t[id].messages;
    }
  }

  /** The request of the next chat after a run of successful ones carries the
      system prompt (if non-empty), every earlier pair in order, and then the
      new user message. */
  lemma NextRequestCarriesHistory(t: Table, cfg: Settings, id: string, turns: seq<(string, string)>,
                                  m: string, upstream: Upstream)
    requires id in t
    ensures ChatStep(Converse(t, id, turns), cfg, id, m, None, upstream).request.messages
         == Serialize(ConvState(t[id].messages + Transcript(turns) + [Message(User, m)], t[id].systemPrompt))
  {
    ConverseHistory(t, id, turns);
  }

  /** A fixed run: prompt "Be terse." set on a new id "t1", then one chat "Hi"
      answered "Hello.". The request was system then user entry, and the
      history is exactly the user message and the reply. */
  lemma TerseScenario(t: Table, cfg: Settings)
    requires "t1" !in t
    ensures var t1 := WithSystemPrompt(t, cfg, "t1", "Be terse.");
            var x := ChatStep(t1, cfg, "t1", "Hi", None, Answered("Hello."));
            x.request.messages == [Entry("system", "Be terse."), Entry("user", "Hi")]
            && x.table["t1"].messages == [Message(User, "Hi"), Message(Assistant, "Hello.")]
            && x.reply == "Hello."
  {
    var t1 := WithSystemPrompt(t, cfg, "t1", "Be terse.");
    var c := ConvState([Message(User, "Hi")], "Be terse.");
    var s := Serialize(c);
    assert |s| == 2 && s[0] == Entry("system", "Be terse.") && s[1] == EntryOf(Message(User, "Hi"));
  }
}
