/** The chat page: a transcript that opens with a greeting and grows by
    one user turn and one model turn per send. */
module Chat {
  import opened Js
  import opened Types
  import opened GeminiService

  const Greeting := "Hello! I'm your Visual Audit Assistant. I can help you understand safety regulations, audit best practices, or interpret previous inspection results. How can I help you today?"

  /** The text appended when the service call throws. */
  const ConnectionTrouble := "Sorry, I'm having trouble connecting right now. Please try again later."

  /** The history sent with a message: each transcript entry becomes one
      turn with the same role and its text as the single part. */
  function History(messages: seq<ChatMessage>): (history: seq<Content>)
    ensures |history| == |messages|
    ensures forall i :: 0 <= i < |messages| ==>
      history[i] == Content(messages[i].role, [messages[i].text])
  {
    if messages == [] then []
    else [Content(messages[0].role, [messages[0].text])] + History(messages[1..])
  }

  /** Roles alternate model, user, model, ... from the greeting on. */
  predicate Alternates(messages: seq<ChatMessage>) {
    forall i :: 0 <= i < |messages| ==> messages[i].role == (if i % 2 == 0 then Model else User)
  }

  /** A completed exchange, a user turn then a model turn, keeps the
      transcript alternating and of odd length. */
  lemma {:induction false} ExchangeKeepsAlternation(messages: seq<ChatMessage>, user: ChatMessage, reply: ChatMessage)
    requires Alternates(messages) && |messages| % 2 == 1
    requires user.role == User && reply.role == Model
    ensures Alternates(messages + [user, reply]) && |messages + [user, reply]| % 2 == 1
  {
    var after := messages + [user, reply];
    forall i | 0 <= i < |after|
      ensures after[i].role == (if i % 2 == 0 then Model else User)
    {
      if i < |messages| {
        assert after[i] == messages[i];
      }
    }
  }

  /** The text of the model turn for a service outcome: the returned text,
      or the connection message when the call throws. */
  function ReplyText(outcome: Outcome<string>): (text: string)
    ensures outcome.Returned? ==> text == outcome.value
    ensures outcome.Thrown? ==> text == ConnectionTrouble
  {
    match outcome
    case Returned(t) => t
    case Thrown(_) => ConnectionTrouble
  }

  /** The service never throws, so the page's `catch` branch never runs:
      the model turn always carries the service's own reply, fallback or
      apology, and is never empty. */
  lemma CatchUnreachable(history: seq<Content>, text: string, send: ChatRequest -> Reply)
    ensures ReplyText(SendChatMessage(history, text, send)) == SendChatMessage(history, text, send).value
    ensures ReplyText(SendChatMessage(history, text, send)) != ""
  {
  }

  class ChatPage {
    var messages: seq<ChatMessage>
    var inputText: string
    var isLoading: bool

    /** Between handler steps: the transcript alternates and is odd in
        length exactly when no request is pending. */
    predicate Valid()
      reads this
    {
      |messages| > 0 && Alternates(messages) && (isLoading <==> |messages| % 2 == 0)
    }

    /** The opening transcript: the model's greeting, with id "1". */
    constructor ()
      ensures Valid()
      ensures messages == [ChatMessage("1", Model, Greeting)]
      ensures inputText == [] && !isLoading
    {
      messages := [ChatMessage("1", Model, Greeting)];
      inputText := [];
      isLoading := false;
    }

    /** The input's change handler. */
    method SetInput(text: string)
      requires Valid()
      modifies this`inputText
      ensures Valid() && inputText == text
    {
      inputText := text;
    }

    /** The guard and the first step of `handleSend`: the user turn, with
        the untrimmed input as its text, is appended; the input is cleared;
        the request is pending. Returns the history as it was before the
        user turn, and the text to send. */
    method StartSend(userId: string) returns (started: bool, history: seq<Content>, text: string)
      requires Valid()
      modifies this
      ensures Valid()
      ensures started <==> !IsBlank(old(inputText)) && !old(isLoading)
      ensures !started ==> unchanged(this)
      ensures started ==>
        && messages == old(messages) + [ChatMessage(userId, User, old(inputText))]
        && inputText == [] && isLoading
        && history == History(old(messages)) && text == old(inputText)
    {
      TrimEmptyIffBlank(inputText);
      if Trim(inputText) == [] || isLoading {
        return false, [], [];
      }
      text := inputText;
      history := History(messages);
      messages := messages + [ChatMessage(userId, User, text)];
      inputText := [];
      isLoading := true;
      started := true;
    }

    /** The rest of `handleSend` once the service has answered: exactly one
        model turn is appended and the request is no longer pending. */
    method FinishSend(replyId: string, outcome: Outcome<string>)
      requires Valid() && isLoading
      modifies this`messages, this`isLoading
      ensures Valid()
      ensures messages == old(messages) + [ChatMessage(replyId, Model, ReplyText(outcome))]
      ensures !isLoading
    {
      messages := messages + [ChatMessage(replyId, Model, ReplyText(outcome))];
      isLoading := false;
    }

    /** `handleSend`, as one step. */
    method HandleSend(userId: string, replyId: string, send: ChatRequest -> Reply)
      requires Valid()
      modifies this
      ensures Valid()
      ensures IsBlank(old(inputText)) || old(isLoading) ==> unchanged(this)
      ensures !IsBlank(old(inputText)) && !old(isLoading) ==>
        var reply := SendChatMessage(History(old(messages)), old(inputText), send).value;
        && messages == old(messages) + [ChatMessage(userId, User, old(inputText)), ChatMessage(replyId, Model, reply)]
        && inputText == [] && !isLoading
    {
      var started, history, text := StartSend(userId);
      if started {
        var outcome := SendChatMessage(history, text, send);
        CatchUnreachable(history, text, send);
        FinishSend(replyId, outcome);
      }
    }
  }
}
