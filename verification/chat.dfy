/**
 * The conversation pipeline of src/hooks/useChat.ts: an append-only list of
 * messages and a loading flag, and `sendMessage`, which guards, appends the
 * user's message, hands the history to the generation client and appends
 * the reply or an apology.
 */
module Chat {
  import opened Wrappers
  import opened JsText
  import opened GeminiClient

  /** A chat message. `id` and `timestamp` come from the clock; they are inputs here. */
  datatype Message = Message(id: string, text: string, isUser: bool, timestamp: int)

  const GreetingText: string := "\U{1F44B} Hello! How can I help you?"
  const ApologyText: string := "Sorry, I encountered an error. Please try again."

  /** The message every conversation opens with. */
  function Greeting(timestamp: int): Message
  {
    Message("1", GreetingText, false, timestamp)
  }

  /** `messages.map(...)`: each message as a turn, `user` for the user's and `assistant` for the others. */
  function TurnsOf(messages: seq<Message>): (turns: seq<ChatTurn>)
    ensures |turns| == |messages|
    ensures forall i :: 0 <= i < |messages| ==>
      (turns[i].role == User <==> messages[i].isUser) && turns[i].content == messages[i].text
  {
    if messages == [] then []
    else
      var m := messages[0];
      [ChatTurn(if m.isUser then User else Assistant, m.text)] + TurnsOf(messages[1..])
  }

  /**
   * The history handed to the client: every earlier message, in order, as a
   * turn, then the new input as a `user` turn.
   */
  function History(messages: seq<Message>, input: string): (history: seq<ChatTurn>)
    ensures |history| == |messages| + 1
    ensures forall i :: 0 <= i < |messages| ==>
      (history[i].role == User <==> messages[i].isUser) && history[i].content == messages[i].text
    ensures history[|messages|] == ChatTurn(User, input)
  {
    TurnsOf(messages) + [ChatTurn(User, input)]
  }

  /** The text of the message appended once the client has answered: its reply, or the apology for any failure. */
  function ReplyText(result: Result<string, ApiError>): string
  {
    match result
    case Ok(text) => text
    case Err(_) => ApologyText
  }

  /** Whether `sendMessage(input)` goes ahead: the trimmed input is non-empty and no request is in flight. */
  predicate Accepts(input: string, isLoading: bool)
  {
    Trim(input) != "" && !isLoading
  }

  /** The pipeline's state: the hook `useChat(context)`. */
  class Conversation {
    /** The optional context the widget was configured with. */
    const context: Option<string>
    var messages: seq<Message>
    var isLoading: bool

    /** The initial state: the greeting alone, not loading. */
    constructor (context: Option<string>, now: int)
      ensures this.context == context
      ensures messages == [Greeting(now)] && !isLoading
      ensures |messages| == 1 && messages[0].id == "1" && !messages[0].isUser
    {
      this.context := context;
      messages := [Greeting(now)];
      isLoading := false;
    }

    /**
     * The part of `sendMessage` before the request: the guard, the user's
     * message and the loading flag. Returns the history to send, or `None`
     * when the call is a no-op.
     */
    method BeginSend(userMessage: string, id: string, now: int) returns (history: Option<seq<ChatTurn>>)
      modifies this`messages, this`isLoading
      ensures !Accepts(userMessage, old(isLoading)) ==>
        history == None && messages == old(messages) && isLoading == old(isLoading)
      ensures Accepts(userMessage, old(isLoading)) ==>
        && history == Some(History(old(messages), Trim(userMessage)))
        && messages == old(messages) + [Message(id, Trim(userMessage), true, now)]
        && isLoading
    {
      var input := Trim(userMessage);
      if input == "" || isLoading {
        return None;
      }
      var sentBefore := messages;
      messages := messages + [Message(id, input, true, now)];
      isLoading := true;
      history := Some(TurnsOf(sentBefore) + [ChatTurn(User, input)]);
    }

    /** The part of `sendMessage` after the request settles: the reply or the apology, then not loading. */
    method FinishSend(result: Result<string, ApiError>, id: string, now: int)
      modifies this`messages, this`isLoading
      ensures messages == old(messages) + [Message(id, ReplyText(result), false, now)]
      ensures !isLoading
    {
      match result {
        case Ok(text) =>
          messages := messages + [Message(id, text, false, now)];
        case Err(_) =>
          messages := messages + [Message(id, ApologyText, false, now)];
      }
      isLoading := false;
    }

    /**
     * `sendMessage(userMessage)`, with the outcome of the network call as
     * `reply`. A guarded call changes nothing and sends nothing; an accepted
     * one appends exactly the user's message and one reply, and leaves the
     * pipeline idle.
     */
    method SendMessage(userMessage: string, reply: FetchReply,
                       userId: string, userTime: int, replyId: string, replyTime: int)
      returns (history: Option<seq<ChatTurn>>)
      modifies this`messages, this`isLoading
      ensures !Accepts(userMessage, old(isLoading)) ==>
        history == None && messages == old(messages) && isLoading == old(isLoading)
      ensures Accepts(userMessage, old(isLoading)) ==>
        && history == Some(History(old(messages), Trim(userMessage)))
        && messages == old(messages) + [Message(userId, Trim(userMessage), true, userTime),
                                        Message(replyId, ReplyText(ReadReply(reply)), false, replyTime)]
        && !isLoading
    {
      ghost var before := messages;
      history := BeginSend(userMessage, userId, userTime);
      if history.Some? {
        ghost var sent := messages;
        var contents, result := GeminiClient.SendMessage(history.value, context, reply);
        FinishSend(result, replyId, replyTime);
        assert messages == sent + [Message(replyId, ReplyText(ReadReply(reply)), false, replyTime)];
      }
    }
  }

  /**
   * Every failure, whatever its kind, appends the same apology; a success
   * appends the reply text itself.
   */
  lemma FailuresCollapse(e1: ApiError, e2: ApiError, text: string)
    ensures ReplyText(Err(e1)) == ReplyText(Err(e2)) == ApologyText
    ensures ReplyText(Ok(text)) == text
  {
  }
}
