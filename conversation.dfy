/**
 * `Message` and `Conversation` of src/core/chat_client.py: one conversation's
 * ordered history and its system prompt, and the request format the
 * completion API is sent (`to_openai_format`).
 */
module Conversations {

  /** The roles the engine stores. The system prompt is never stored as a
      message: it is held apart and only placed in front when serialising. */
  datatype Role = User | Assistant

  function RoleName(r: Role): string {
    match r
    case User => "user"
    case Assistant => "assistant"
  }

  datatype Message = Message(role: Role, content: string)

  /** One `{"role": ..., "content": ...}` entry of a request's `messages`. */
  datatype Entry = Entry(role: string, content: string)

  const SystemRole := "system"

  /** The value of a conversation: its history and its system prompt. */
  datatype ConvState = ConvState(messages: seq<Message>, systemPrompt: string)

  function EntryOf(m: Message): Entry {
    Entry(RoleName(m.role), m.content)
  }

  function Entries(ms: seq<Message>): (r: seq<Entry>)
    ensures |r| == |ms|
  {
    seq(|ms|, i requires 0 <= i < |ms| => EntryOf(ms[i]))
  }

  /** `to_openai_format`: a system entry first exactly when the system prompt
      is non-empty, then every stored message in stored order; no other
      entry has the system role. */
  function Serialize(c: ConvState): (r: seq<Entry>)
    ensures |r| == |c.messages| + (if c.systemPrompt != "" then 1 else 0)
    ensures c.systemPrompt != "" ==> r[0] == Entry(SystemRole, c.systemPrompt)
    ensures var off := if c.systemPrompt != "" then 1 else 0;
            forall i | 0 <= i < |c.messages| :: r[off + i] == EntryOf(c.messages[i])
    ensures forall k | 0 <= k < |r| :: r[k].role == SystemRole <==> k == 0 && c.systemPrompt != ""
  {
    (if c.systemPrompt != "" then [Entry(SystemRole, c.systemPrompt)] else []) + Entries(c.messages)
  }

  /** Appending a message appends exactly its entry to the serialisation. */
  lemma SerializeAppend(c: ConvState, m: Message)
    ensures Serialize(c.(messages := c.messages + [m])) == Serialize(c) + [EntryOf(m)]
  {
    assert Entries(c.messages + [m]) == Entries(c.messages) + [EntryOf(m)];
  }

  /** The last entry of a serialisation is the last stored message. */
  lemma SerializeEndsWithLast(c: ConvState)
    requires c.messages != []
    ensures var r := Serialize(c); |r| > 0 && r[|r| - 1] == EntryOf(c.messages[|c.messages| - 1])
  {
    var r := Serialize(c);
    var off := if c.systemPrompt != "" then 1 else 0;
    assert r[off + (|c.messages| - 1)] == EntryOf(c.messages[|c.messages| - 1]);
  }

  class Conversation {
    var messages: seq<Message>
    var systemPrompt: string

    constructor (systemPrompt: string)
      ensures State() == ConvState([], systemPrompt)
    {
      this.messages := [];
      this.systemPrompt := systemPrompt;
    }

    function State(): ConvState
      reads this
    {
      ConvState(messages, systemPrompt)
    }

    /** `add_message`: appends one message in place; the prompt is kept. */
    method AddMessage(role: Role, content: string)
      modifies this
      ensures State() == ConvState(old(messages) + [Message(role, content)], old(systemPrompt))
    {
      messages := messages + [Message(role, content)];
    }

    /** `to_openai_format`: builds a fresh list from the stored state. */
    method ToOpenAIFormat() returns (result: seq<Entry>)
      ensures result == Serialize(State())
    {
      result := [];
      if systemPrompt != "" {
        result := result + [Entry(SystemRole, systemPrompt)];
      }
      ghost var head := result;
      for i := 0 to |messages|
        invariant result == head + Entries(messages[..i])
      {
        assert messages[..i + 1] == messages[..i] + [messages[i]];
        assert Entries(messages[..i + 1]) == Entries(messages[..i]) + [EntryOf(messages[i])];
        result := result + [EntryOf(messages[i])];
      }
      assert messages[..|messages|] == messages;
    }

    /** `clear`: empties the history and keeps the system prompt. */
    method Clear()
      modifies this
      ensures State() == ConvState([], old(systemPrompt))
    {
      messages := [];
    }
  }
}
