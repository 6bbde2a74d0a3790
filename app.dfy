/**
 * The chat page's controller: the conversation state, the reference to the chat session, and the
 * handlers that start and stream a turn, clear the chat, and mount the page.
 */
module App {
  import opened Wrappers
  import opened Conversation
  import opened Gemini
  import Input

  class ChatApp {
    /** The page state held by `useState`. */
    var state: ChatState
    /** The session reference; `null` until a session has been created. */
    var chatRef: Session?
    /** The configured API key, fixed for the life of the page. */
    const apiKey: Option<string>

    /**
     * Mounting the page: the empty state, then the effect that creates the session. If creation
     * throws, there is no session and its message becomes the error.
     */
    constructor (apiKey: Option<string>)
      ensures this.apiKey == apiKey
      ensures state.messages == [] && !state.isLoading
      ensures (apiKey == None || apiKey == Some("")) ==> chatRef == null && state.error == Some(MissingKeyMessage)
      ensures !(apiKey == None || apiKey == Some("")) ==> chatRef != null && fresh(chatRef) && state.error == None
    {
      this.apiKey := apiKey;
      state := Initial();
      chatRef := null;
      new;
      var created := CreateChatSession(apiKey);
      match created
      case Success(session) =>
        chatRef := session;
      case Failure(message) =>
        state := WithInitError(state, message);
    }

    /**
     * Sends `content` as one turn. Without a session nothing happens. Otherwise the user message
     * and an empty assistant message are appended, every chunk of the stream appends to a buffer
     * whose value is written into the assistant message, a failure shows the fixed error text, and
     * the page ends idle. `trace` lists the state published after each chunk.
     */
    method HandleSend(content: string, clock: TurnClock, stream: Stream) returns (trace: seq<ChatState>)
      modifies this`state
      ensures old(chatRef) == null ==> state == old(state) && trace == []
      ensures old(chatRef) != null ==> state == Turn(old(state), content, clock, stream)
      ensures old(chatRef) != null ==> |trace| == |stream.chunks|
      ensures old(chatRef) != null ==> forall k :: 0 <= k < |trace| ==>
        trace[k] == Streamed(Started(old(state), content, clock), AssistantId(clock), stream.chunks[..k + 1])
      ensures forall k :: 0 <= k < |trace| ==> trace[k].isLoading && trace[k].error == old(state).error
    {
      trace := [];
      if chatRef == null {
        return;
      }
      var assistantId := AssistantId(clock);
      state := StartTurn(state, UserMessage(content, clock), AssistantMessage(clock));
      ghost var started := state;
      var fullContent := "";
      var chunks := stream.chunks;
      var i := 0;
      while i < |chunks|
        invariant 0 <= i <= |chunks|
        invariant fullContent == Concat(chunks[..i])
        invariant state == Streamed(started, assistantId, chunks[..i])
        invariant trace == Published(started, assistantId, chunks[..i])
      {
        assert chunks[..i + 1][..i] == chunks[..i];
        fullContent := fullContent + chunks[i];
        assert fullContent == Concat(chunks[..i + 1]);
        state := WithContent(state, assistantId, fullContent);
        trace := trace + [state];
        i := i + 1;
      }
      assert chunks[..i] == chunks;
      forall k | 0 <= k < |trace|
        ensures trace[k] == Streamed(started, assistantId, chunks[..k + 1])
      {
        PublishedAt(started, assistantId, chunks, k);
      }
      if stream.fails {
        state := WithFailure(state);
      }
      state := Settled(state);
    }

    /**
     * Clears the chat: the state is reset whatever it was, then a new session is created. If
     * creation throws, the error escapes the handler (`thrown`), the reset stays and the old
     * session reference is kept.
     */
    method ClearChat() returns (thrown: Option<string>)
      modifies this`state, this`chatRef
      ensures state.messages == [] && !state.isLoading && state.error == None
      ensures thrown.None? <==> !(apiKey == None || apiKey == Some(""))
      ensures thrown.None? ==> chatRef != null && fresh(chatRef)
      ensures thrown.Some? ==> thrown.value == MissingKeyMessage && chatRef == old(chatRef)
    {
      state := Initial();
      var created := CreateChatSession(apiKey);
      match created
      case Success(session) =>
        chatRef := session;
        thrown := None;
      case Failure(message) =>
        thrown := Some(message);
    }

    /**
     * A submit from the input box, which is disabled while the page is busy and hands what it sends
     * to `HandleSend`. While a turn is loading nothing is sent and nothing changes.
     */
    method Submit(box: Input.ChatInput, clock: TurnClock, stream: Stream) returns (sent: Option<string>)
      modifies this`state, box
      ensures sent == Input.SubmitDecision(old(box.input), old(state.isLoading))
      ensures box.input == Input.AfterSubmit(old(box.input), old(state.isLoading))
      ensures old(state.isLoading) ==> sent == None && state == old(state)
      ensures sent.None? ==> state == old(state)
      ensures sent.Some? && old(chatRef) != null ==> state == Turn(old(state), sent.value, clock, stream)
      ensures sent.Some? && old(chatRef) == null ==> state == old(state)
    {
      sent := box.HandleSubmit(state.isLoading);
      if sent.Some? {
        var _ := HandleSend(sent.value, clock, stream);
      }
    }
  }
}
