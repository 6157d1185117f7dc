/**
 * The admin's AI assistant page (samyoga/app/admin/ai/page.tsx): the message list, the
 * input box and the loading flag, and the history window sent with each message.
 */
module AiPanel {
  import opened Wrappers
  import opened Text
  import opened Seqs
  import opened ChatRoute

  datatype Speaker = UserSpeaker | AssistantSpeaker

  /** A chat bubble; `id` and `timestamp` come from the clock. */
  datatype Message = Message(id: int, role: Speaker, content: string, timestamp: int)

  /**
   * What the chat request gives the page: the JSON answer's `response` and `error`
   * fields (the empty string when missing), or an error thrown by `fetch` or `json()`.
   */
  datatype ChatAnswer = Answered(response: string, error: string) | NetworkError

  const ErrorWord := "error"
  const ReplyApology := "I apologize, but I encountered an error. Please try again."
  const NetworkApology := "I apologize, but I encountered an error. Please check your API key configuration and try again."

  /** `m.role !== 'assistant' || !m.content.includes('error')`. */
  function KeptForContext(): Message -> bool {
    (m: Message) => m.role != AssistantSpeaker || !Contains(m.content, ErrorWord)
  }

  const UserRole := "user"
  const ModelRole := "model"

  /** `m.role === 'user' ? 'user' : 'model'`. */
  function RoleName(role: Speaker): (r: string)
    ensures r == UserRole <==> role == UserSpeaker
    ensures r in {UserRole, ModelRole}
  {
    if role == UserSpeaker then UserRole else ModelRole
  }

  /** `{ role: ..., parts: [{ text: m.content }] }`. */
  function ToContent(): Message -> Content {
    (m: Message) => Content(RoleName(m.role), [m.content])
  }

  /** The history sent with a message: the last ten kept messages, as model contents. */
  function History(messages: seq<Message>): (r: seq<Content>)
    ensures |r| <= 10
  {
    Map(LastN(Filter(messages, KeptForContext()), 10), ToContent())
  }

  /** The messages kept for context: every user message, and the assistant messages without "error". */
  lemma KeptMessages(messages: seq<Message>)
    ensures forall m :: m in Filter(messages, KeptForContext()) <==>
      m in messages && (m.role == UserSpeaker || !Contains(m.content, ErrorWord))
  {
  }

  /** The history holds the last ten kept messages, or all of them when there are fewer. */
  lemma HistoryLength(messages: seq<Message>)
    ensures var kept := Filter(messages, KeptForContext());
      |History(messages)| == if |kept| < 10 then |kept| else 10
  {
  }

  /**
   * The history is the tail of the kept messages, in order: entry `i` carries the text
   * and the role name of the kept message at the matching position from the end.
   */
  lemma HistoryIsTheLatestKept(messages: seq<Message>, i: nat)
    requires i < |History(messages)|
    ensures var kept := Filter(messages, KeptForContext());
      var m := kept[|kept| - |History(messages)| + i];
      History(messages)[i] == Content(RoleName(m.role), [m.content])
  {
    var kept := Filter(messages, KeptForContext());
    assert History(messages) == Map(LastN(kept, 10), ToContent());
    WindowEntry(kept, i);
  }

  /** Entry `i` of the last ten of `kept`, as contents, is the matching message from the end. */
  lemma WindowEntry(kept: seq<Message>, i: nat)
    requires i < |Map(LastN(kept, 10), ToContent())|
    ensures var n := |Map(LastN(kept, 10), ToContent())|;
      var m := kept[|kept| - n + i];
      Map(LastN(kept, 10), ToContent())[i] == Content(RoleName(m.role), [m.content])
  {
    var window := LastN(kept, 10);
    var m := kept[|kept| - |window| + i];
    assert window[i] == m;
    assert Map(window, ToContent())[i] == ToContent()(window[i]);
  }

  /** `data.response || data.error || apology`, or the network apology when the request threw. */
  function AssistantContent(answer: ChatAnswer): (r: string)
    ensures answer.Answered? && answer.response != "" ==> r == answer.response
    ensures answer.Answered? && answer.response == "" && answer.error != "" ==> r == answer.error
    ensures answer.Answered? && answer.response == "" && answer.error == "" ==> r == ReplyApology
    ensures answer.NetworkError? ==> r == NetworkApology
  {
    match answer
    case Answered(response, error) =>
      if response != "" then response else if error != "" then error else ReplyApology
    case NetworkError => NetworkApology
  }

  class ChatPanel {
    var messages: seq<Message>
    var input: string
    var isLoading: bool

    constructor ()
      ensures messages == [] && input == "" && !isLoading
    {
      messages := [];
      input := "";
      isLoading := false;
    }

    /** The input box's `onChange`. */
    method Type(text: string)
      modifies this
      ensures input == text && messages == old(messages) && isLoading == old(isLoading)
    {
      input := text;
    }

    /**
     * `handleSend` up to the request: refused for a blank input or while a request is in
     * flight; otherwise the user's message is appended, the input cleared, the loading
     * flag raised, and the request carries the text and the history of the messages
     * present before it.
     */
    method BeginSend(now: int) returns (request: Option<ChatBody>)
      modifies this
      ensures IsBlank(old(input)) || old(isLoading) ==> request.None? && unchanged(this)
      ensures !IsBlank(old(input)) && !old(isLoading) ==>
        && request == Some(ChatBody(old(input), History(old(messages))))
        && messages == old(messages) + [Message(now, UserSpeaker, old(input), now)]
        && input == "" && isLoading
    {
      var text, history := input, History(messages);
      // `!input.trim()`, which is a blank input by `TrimEmptyIffBlank`
      if IsBlank(text) || isLoading {
        return None;
      }
      request := Some(ChatBody(text, history));
      messages := messages + [Message(now, UserSpeaker, text, now)];
      input := "";
      isLoading := true;
    }

    /** `handleSend` after the request: the assistant's message is appended and loading ends. */
    method FinishSend(answer: ChatAnswer, now: int)
      modifies this
      ensures messages == old(messages) + [Message(now + 1, AssistantSpeaker, AssistantContent(answer), now)]
      ensures input == old(input) && !isLoading
    {
      messages := messages + [Message(now + 1, AssistantSpeaker, AssistantContent(answer), now)];
      isLoading := false;
    }

    /**
     * The whole `handleSend`, with `chat` standing for the request: an accepted send adds
     * exactly the user's message and then one assistant message.
     */
    method HandleSend(sentAt: int, chat: ChatBody -> ChatAnswer, answeredAt: int) returns (request: Option<ChatBody>)
      modifies this
      ensures request.None? <==> IsBlank(old(input)) || old(isLoading)
      ensures request.None? ==> unchanged(this)
      ensures request.Some? ==>
        && request.value == ChatBody(old(input), History(old(messages)))
        && messages == old(messages) + [Message(sentAt, UserSpeaker, old(input), sentAt),
                                        Message(answeredAt + 1, AssistantSpeaker, AssistantContent(chat(request.value)), answeredAt)]
        && input == "" && !isLoading
    {
      request := BeginSend(sentAt);
      if request.Some? {
        FinishSend(chat(request.value), answeredAt);
      }
    }
  }
}
