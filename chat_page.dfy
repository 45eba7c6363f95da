/**
 * The chat page's transcript: the list of rendered messages and the three
 * operations that change it (`appendUser`, `appendAssistant`,
 * `replaceLastAssistant`), plus the `onSend` turn, which appends the user's
 * text and a "thinking" placeholder and later replaces that placeholder with
 * the reply (or an apology when the request fails).
 */
module ChatTranscript {
  import opened Wrappers
  import opened Strings
  import opened ReplyNormalizer
  import opened BlockFormatter

  datatype Role = User | Assistant

  /** One entry of `data.messages`: its role, its text and the rich-text nodes rendered from that text. */
  datatype Message = Message(role: Role, content: string, nodes: seq<Block>)

  /** The placeholder shown while a reply is pending. */
  const Thinking: string := "思考中…"

  /** The text that replaces the placeholder when the request fails. */
  const SlowNetwork: string := "网络似乎有点慢，稍后再试～"

  /** The message `appendUser(text)` adds: the raw text and its rendering. */
  function UserMessage(text: string): (m: Message)
    ensures m.role == User && m.content == text && m.nodes == Format(text)
  {
    Message(User, text, Format(text))
  }

  /** The message `appendAssistant(text)` adds: the normalized text and the rendering of that normalized text. */
  function AssistantMessage(text: string): (m: Message)
    ensures m.role == Assistant && m.content == Normalize(text) && m.nodes == Format(m.content)
  {
    Message(Assistant, Normalize(text), Format(Normalize(text)))
  }

  predicate LastIsAssistant(msgs: seq<Message>)
  {
    |msgs| > 0 && msgs[|msgs| - 1].role == Assistant
  }

  /**
   * The transcript after `replaceLastAssistant(text)`: when the last message is
   * an assistant's, only that slot changes and the length stays; otherwise one
   * assistant message is appended. Either way the last message is the
   * assistant message for `text`.
   */
  function ReplacedLast(msgs: seq<Message>, text: string): (r: seq<Message>)
    ensures LastIsAssistant(msgs) ==> |r| == |msgs|
    ensures !LastIsAssistant(msgs) ==> |r| == |msgs| + 1
    ensures forall i :: 0 <= i < |r| - 1 ==> r[i] == msgs[i]
    ensures r[|r| - 1] == AssistantMessage(text)
  {
    if LastIsAssistant(msgs) then msgs[|msgs| - 1 := AssistantMessage(text)]
    else msgs + [AssistantMessage(text)]
  }

  /** The reply text the request's success handler passes on: `normalizeReply((res?.reply || "").replace(/\r\n/g, "\n"))`. */
  function ReplyText(reply: Option<string>): string
  {
    Normalize(ReplaceCrlf(if reply.Some? then reply.value else ""))
  }

  /** What replaces the placeholder once the request settles. */
  function Settled(response: Result<Option<string>>): string
  {
    if response.Ok? then ReplyText(response.value) else SlowNetwork
  }

  /** The text the request's handlers pass to `replaceLastAssistant`: the normalized reply on success, the apology on failure. */
  method SettledReply(response: Result<Option<string>>) returns (text: string)
    ensures text == Settled(response)
    ensures response.Err? ==> text == SlowNetwork
    ensures response.Ok? && response.value.None? ==> text == ""
  {
    text := SlowNetwork;
    if response.Ok? {
      var reply := ReplaceCrlf(if response.value.Some? then response.value.value else "");
      text := NormalizeReply(reply);
    }
  }

  /** The request `onSend` issues: the conversation and the trimmed message. */
  datatype ChatRequest = ChatRequest(conversationId: string, message: string)

  /** How `onSend` ends: it does nothing, it asks for a conversation to be started first, or it sends. */
  datatype SendOutcome = Ignored | NoConversation | Sent(request: ChatRequest)

  /** The transcript after the synchronous half of a turn: the user's text, then the placeholder. */
  function AfterSend(msgs: seq<Message>, text: string): seq<Message>
  {
    msgs + [UserMessage(text), AssistantMessage(Thinking)]
  }

  /**
   * A completed turn grows the transcript by exactly two: the old messages
   * stay, the user's message follows them and the placeholder's slot now holds
   * the settled reply.
   */
  lemma TurnAddsTwo(msgs: seq<Message>, text: string, response: Result<Option<string>>)
    ensures var r := ReplacedLast(AfterSend(msgs, text), Settled(response));
      && |r| == |msgs| + 2
      && r[..|msgs|] == msgs
      && r[|msgs|] == UserMessage(text)
      && r[|msgs| + 1] == AssistantMessage(Settled(response))
  {
    var s := AfterSend(msgs, text);
    assert LastIsAssistant(s);
    var r := ReplacedLast(s, Settled(response));
    assert r[..|msgs|] == s[..|msgs|] == msgs;
  }

  /** Replacing twice in a row keeps only the second text: the placeholder slot is reused, never stacked. */
  lemma ReplaceTwice(msgs: seq<Message>, a: string, b: string)
    ensures ReplacedLast(ReplacedLast(msgs, a), b) == ReplacedLast(msgs, b)
  {
  }

  /**
   * The success handler replaces `\r\n` before its `normalizeReply`, and
   * `replaceLastAssistant` normalizes once more. A single lone `\r` before a
   * `\r\n` is settled by the first pass, so the second changes nothing.
   */
  lemma ReplyOneLoneReturn()
    ensures ReplyText(Some("a\r\r\nb")) == "a\nb"
    ensures Normalize(ReplyText(Some("a\r\r\nb"))) == ReplyText(Some("a\r\r\nb"))
  {
    FirstPassCrlf();
    CrlfPairNormalizes();
    PlainPairSettled();
  }

  /**
   * Two lone `\r` before a `\r\n` leave a `\r\n` in the text the success
   * handler hands on, and the second pass in `replaceLastAssistant` turns it
   * into a line break: the message shows a different text than the handler
   * computed.
   */
  lemma ReplyTwoLoneReturns()
    ensures ReplyText(Some("a\r\r\r\nb")) == "a\r\nb"
    ensures Normalize(ReplyText(Some("a\r\r\r\nb"))) == "a\nb"
  {
    CrlfAfterTwoLoneReturns();
    NormalizeNotIdempotentWithCarriageReturn();
  }

  /** Regrouping two appends as one, kept apart so that `StartTurn` reasons about the messages only through this fact. */
  lemma AppendTwo(msgs: seq<Message>, a: Message, b: Message)
    ensures msgs + [a] + [b] == msgs + [a, b]
  {
  }

  /** The chat page's data. */
  class ChatPage {
    var messages: seq<Message>
    var input: string
    var loading: bool
    var conversationId: string

    constructor()
      ensures messages == [] && input == "" && !loading && conversationId == ""
    {
      messages := [];
      input := "";
      loading := false;
      conversationId := "";
    }

    /** `appendUser`: appends the raw text with its rendering. */
    method AppendUser(text: string)
      modifies this
      ensures messages == old(messages) + [UserMessage(text)]
      ensures input == old(input) && loading == old(loading) && conversationId == old(conversationId)
    {
      var nodes := FormatMarkdown(text);
      messages := messages + [Message(User, text, nodes)];
    }

    /** `appendAssistant`: appends the normalized text with its rendering. */
    method AppendAssistant(text: string)
      modifies this
      ensures messages == old(messages) + [AssistantMessage(text)]
      ensures input == old(input) && loading == old(loading) && conversationId == old(conversationId)
    {
      var clean := NormalizeReply(text);
      var nodes := FormatMarkdown(clean);
      messages := messages + [Message(Assistant, clean, nodes)];
    }

    /** `replaceLastAssistant`: overwrites the last slot of a copy when it is an assistant's, appends otherwise. */
    method ReplaceLastAssistant(text: string)
      modifies this
      ensures messages == ReplacedLast(old(messages), text)
      ensures input == old(input) && loading == old(loading) && conversationId == old(conversationId)
    {
      var clean := NormalizeReply(text);
      var msgs := messages;
      var node := FormatMarkdown(clean);
      if |msgs| > 0 && msgs[|msgs| - 1].role == Assistant {
        msgs := msgs[|msgs| - 1 := Message(Assistant, clean, node)];
      } else {
        msgs := msgs + [Message(Assistant, clean, node)];
      }
      messages := msgs;
    }

    /**
     * The synchronous half of `onSend`. `storedId` is the conversation id kept
     * in storage, used when the page has none. A blank input or a pending
     * request does nothing; a missing conversation only shows a toast.
     */
    method OnSend(storedId: string) returns (outcome: SendOutcome)
      modifies this
      ensures var text := Trim(old(input));
        var cid := if old(conversationId) != "" then old(conversationId) else storedId;
        if text == "" || old(loading) then
          outcome == Ignored && messages == old(messages) && input == old(input) && loading == old(loading)
        else if cid == "" then
          outcome == NoConversation && messages == old(messages) && input == old(input) && loading == old(loading)
        else
          && outcome == Sent(ChatRequest(cid, text))
          && messages == AfterSend(old(messages), text)
          && input == "" && loading
      ensures conversationId == old(conversationId)
    {
      var text := Trim(input);
      if text == "" || loading {
        return Ignored;
      }
      var cid := if conversationId != "" then conversationId else storedId;
      if cid == "" {
        return NoConversation;
      }
      StartTurn(text);
      outcome := Sent(ChatRequest(cid, text));
    }

    /** The state change of a turn that goes ahead: the input is cleared, the page loads, and two messages are appended. */
    method StartTurn(text: string)
      modifies this
      ensures messages == AfterSend(old(messages), text)
      ensures input == "" && loading && conversationId == old(conversationId)
    {
      ghost var before := messages;
      input := "";
      loading := true;
      AppendUser(text);
      AppendAssistant(Thinking);
      AppendTwo(before, UserMessage(text), AssistantMessage(Thinking));
    }

    /**
     * The asynchronous half of `onSend`, its `then` and `catch` handlers: the
     * request resolves with a body whose `reply` may be missing, or it
     * rejects. The placeholder is replaced; `OnSettled` then ends the loading.
     */
    method OnReply(response: Result<Option<string>>)
      modifies this
      ensures messages == ReplacedLast(old(messages), Settled(response))
      ensures input == old(input) && loading == old(loading) && conversationId == old(conversationId)
    {
      var text := SettledReply(response);
      ReplaceLastAssistant(text);
    }

    /** The `finally` handler of the request: the page stops loading; nothing else changes. */
    method OnSettled()
      modifies this
      ensures !loading
      ensures messages == old(messages) && input == old(input) && conversationId == old(conversationId)
    {
      loading := false;
    }
  }
}
