/**
 * The conversation state of the chat page and the pure state updaters that the page's
 * handlers pass to `setState`, together with the specification of one whole turn.
 */
module Conversation {
  import opened Wrappers

  datatype Role = User | Assistant

  /**
   * A chat message. The source formats the id as the decimal string of a `Date.now()` reading;
   * since that formatting is injective on naturals, the id is kept here as the number itself.
   */
  datatype Message = Message(id: nat, role: Role, content: string, timestamp: nat)

  /** The page state: the messages in display order, the loading flag and the error banner text. */
  datatype ChatState = ChatState(messages: seq<Message>, isLoading: bool, error: Option<string>)

  /** The fixed text shown when a streaming call fails. */
  const FailureText: string := "Failed to get response. Please try again."

  /**
   * What the remote model delivers for one turn: the text chunks, in order, that arrive before
   * the stream ends, and whether it ends by failing (after those chunks) or by running out.
   */
  datatype Stream = Stream(chunks: seq<string>, fails: bool)

  /**
   * The clock readings taken while a turn starts: `Date.now()` for the user message's id, the
   * user message's timestamp, `Date.now()` again for the assistant message's id (plus one), and the
   * assistant message's timestamp.
   */
  datatype TurnClock = TurnClock(userNow: nat, userStamp: nat, assistantNow: nat, assistantStamp: nat)

  /** The state the page starts in and that clearing the chat restores: empty, idle, no error. */
  function Initial(): (s: ChatState)
    ensures s.messages == [] && !s.isLoading && s.error == None
  {
    ChatState([], false, None)
  }

  /** The user message a turn appends: the submitted text as given, under the first clock reading. */
  function UserMessage(content: string, clock: TurnClock): (m: Message)
    ensures m.role == User && m.content == content
    ensures m.id == clock.userNow && m.timestamp == clock.userStamp
  {
    Message(clock.userNow, User, content, clock.userStamp)
  }

  /**
   * The id of the assistant message a turn appends: one more than the second clock reading. It
   * differs from the user message's id whenever the clock has not run backwards in between.
   */
  function AssistantId(clock: TurnClock): (id: nat)
    ensures id > clock.assistantNow
    ensures clock.userNow <= clock.assistantNow ==> id != clock.userNow
  {
    clock.assistantNow + 1
  }

  /** The empty assistant placeholder a turn appends, under the assistant id. */
  function AssistantMessage(clock: TurnClock): (m: Message)
    ensures m.role == Assistant && m.content == ""
    ensures m.id == AssistantId(clock) && m.timestamp == clock.assistantStamp
  {
    Message(AssistantId(clock), Assistant, "", clock.assistantStamp)
  }

  /** Updater used when the chat session cannot be created: the thrown message becomes the error. */
  function WithInitError(prev: ChatState, message: string): (s: ChatState)
    ensures s.error == Some(message)
    ensures s.messages == prev.messages && s.isLoading == prev.isLoading
  {
    prev.(error := Some(message))
  }

  /**
   * Updater that starts a turn: the two new messages go at the end, user first, and the page
   * becomes busy. An error left from an earlier turn stays.
   */
  function StartTurn(prev: ChatState, user: Message, assistant: Message): (s: ChatState)
    ensures |s.messages| == |prev.messages| + 2
    ensures s.messages[..|prev.messages|] == prev.messages
    ensures s.messages[|prev.messages|] == user && s.messages[|prev.messages| + 1] == assistant
    ensures s.isLoading && s.error == prev.error
  {
    prev.(messages := prev.messages + [user, assistant], isLoading := true)
  }

  /**
   * The `map` of the chunk updater: each message whose id is `id` gets `content`, every other
   * message is kept as it is, and nothing moves.
   */
  function ReplaceContent(ms: seq<Message>, id: nat, content: string): (r: seq<Message>)
    ensures |r| == |ms|
    ensures forall i :: 0 <= i < |ms| && ms[i].id == id ==> r[i] == ms[i].(content := content)
    ensures forall i :: 0 <= i < |ms| && ms[i].id != id ==> r[i] == ms[i]
  {
    if ms == [] then []
    else
      var m := ms[0];
      [if m.id == id then m.(content := content) else m] + ReplaceContent(ms[1..], id, content)
  }

  /** Updater for one chunk: only the messages with the given id change, and only their content. */
  function WithContent(prev: ChatState, id: nat, content: string): (s: ChatState)
    ensures |s.messages| == |prev.messages|
    ensures forall i :: 0 <= i < |prev.messages| ==>
      s.messages[i].id == prev.messages[i].id &&
      s.messages[i].role == prev.messages[i].role &&
      s.messages[i].timestamp == prev.messages[i].timestamp
    ensures forall i :: 0 <= i < |prev.messages| ==>
      s.messages[i].content == if prev.messages[i].id == id then content else prev.messages[i].content
    ensures s.isLoading == prev.isLoading && s.error == prev.error
  {
    prev.(messages := ReplaceContent(prev.messages, id, content))
  }

  /** Updater of the failure handler: the fixed error text is shown, nothing else changes. */
  function WithFailure(prev: ChatState): (s: ChatState)
    ensures s.error == Some(FailureText)
    ensures s.messages == prev.messages && s.isLoading == prev.isLoading
  {
    prev.(error := Some(FailureText))
  }

  /** Updater of the `finally` block: the page is no longer busy, nothing else changes. */
  function Settled(prev: ChatState): (s: ChatState)
    ensures !s.isLoading
    ensures s.messages == prev.messages && s.error == prev.error
  {
    prev.(isLoading := false)
  }

  /**
   * The running buffer after the given chunks: each chunk is appended to it in turn, from "".
   * It starts empty and is never shorter than the chunk appended last.
   */
  function Concat(chunks: seq<string>): (buffer: string)
    ensures chunks == [] ==> buffer == ""
    ensures chunks != [] ==> |chunks[|chunks| - 1]| <= |buffer|
  {
    if chunks == [] then "" else Concat(chunks[..|chunks| - 1]) + chunks[|chunks| - 1]
  }

  /**
   * The state after the chunk updates of a turn, applied in order to `s`: the update for the k-th
   * chunk writes the buffer holding chunks 0..k into every message with id `id`.
   */
  function Streamed(s: ChatState, id: nat, chunks: seq<string>): (r: ChatState)
    ensures |r.messages| == |s.messages|
    ensures r.isLoading == s.isLoading && r.error == s.error
    decreases |chunks|
  {
    if chunks == [] then s
    else WithContent(Streamed(s, id, chunks[..|chunks| - 1]), id, Concat(chunks))
  }

  /**
   * The states published while a turn streams, one per chunk: the k-th is the state after the
   * update for chunk k.
   */
  function Published(s: ChatState, id: nat, chunks: seq<string>): (t: seq<ChatState>)
    ensures |t| == |chunks|
    decreases |chunks|
  {
    if chunks == [] then []
    else Published(s, id, chunks[..|chunks| - 1]) + [Streamed(s, id, chunks)]
  }

  /** The k-th published state is the fold of chunks 0..k. */
  lemma {:induction false} PublishedAt(s: ChatState, id: nat, chunks: seq<string>, k: nat)
    requires k < |chunks|
    ensures Published(s, id, chunks)[k] == Streamed(s, id, chunks[..k + 1])
    decreases |chunks|
  {
    var init := chunks[..|chunks| - 1];
    if k < |init| {
      PublishedAt(s, id, init, k);
      assert init[..k + 1] == chunks[..k + 1];
    } else {
      assert chunks[..k + 1] == chunks;
    }
  }

  /** The state right after a turn has started. */
  function Started(prev: ChatState, content: string, clock: TurnClock): ChatState
  {
    StartTurn(prev, UserMessage(content, clock), AssistantMessage(clock))
  }

  /**
   * The state one whole turn leads to when a session exists: start, every chunk update, the
   * failure update if the stream fails, and the `finally` update.
   */
  function Turn(prev: ChatState, content: string, clock: TurnClock, stream: Stream): (r: ChatState)
    ensures !r.isLoading
    ensures r.error == if stream.fails then Some(FailureText) else prev.error
    ensures |r.messages| == |prev.messages| + 2
  {
    var streamed := Streamed(Started(prev, content, clock), AssistantId(clock), stream.chunks);
    Settled(if stream.fails then WithFailure(streamed) else streamed)
  }

  /**
   * Whether the "typing" placeholder is drawn: the page is busy and the last message exists and
   * is still empty.
   */
  function ShowsTypingIndicator(s: ChatState): (shown: bool)
    ensures shown <==> s.isLoading && |s.messages| > 0 && s.messages[|s.messages| - 1].content == ""
  {
    s.isLoading &&
    match LastMessage(s.messages)
    case None => false
    case Some(m) => m.content == ""
  }

  /** `messages[messages.length - 1]`, which is `undefined` for an empty list. */
  function LastMessage(ms: seq<Message>): Option<Message>
  {
    if |ms| == 0 then None else Some(ms[|ms| - 1])
  }

  /** The turn's ids do not clash: the assistant id differs from the user id and from every earlier id. */
  ghost predicate FreshTurnIds(prev: ChatState, clock: TurnClock)
  {
    clock.userNow != AssistantId(clock) &&
    forall i :: 0 <= i < |prev.messages| ==> prev.messages[i].id != AssistantId(clock)
  }

  // ---------------------------------------------------------------------------------------------
  // The running buffer

  /** The buffer of a concatenation of two chunk lists is the concatenation of their buffers. */
  lemma {:induction false} ConcatAppend(a: seq<string>, b: seq<string>)
    ensures Concat(a + b) == Concat(a) + Concat(b)
    decreases |b|
  {
    if b == [] {
      assert a + b == a;
    } else {
      var n := |b| - 1;
      assert (a + b)[..|a + b| - 1] == a + b[..n];
      ConcatAppend(a, b[..n]);
    }
  }

  /** The buffer is empty exactly as long as every chunk so far has been empty. */
  lemma {:induction false} ConcatEmpty(chunks: seq<string>)
    ensures Concat(chunks) == "" <==> forall i :: 0 <= i < |chunks| ==> chunks[i] == ""
    decreases |chunks|
  {
    if chunks != [] {
      var init := chunks[..|chunks| - 1];
      ConcatEmpty(init);
      assert forall i :: 0 <= i < |init| ==> init[i] == chunks[i];
    }
  }

  /**
   * The buffer only grows: after k chunks it is a prefix of the buffer after all of them, and the
   * rest is exactly what the later chunks add.
   */
  lemma ConcatPrefix(chunks: seq<string>, k: nat)
    requires k <= |chunks|
    ensures Concat(chunks) == Concat(chunks[..k]) + Concat(chunks[k..])
    ensures Concat(chunks[..k]) <= Concat(chunks)
  {
    assert chunks == chunks[..k] + chunks[k..];
    ConcatAppend(chunks[..k], chunks[k..]);
  }

  /** Between any two points of a stream, the earlier buffer is a prefix of the later one. */
  lemma BufferGrows(chunks: seq<string>, j: nat, k: nat)
    requires j <= k <= |chunks|
    ensures Concat(chunks[..j]) <= Concat(chunks[..k])
  {
    assert chunks[..k][..j] == chunks[..j];
    ConcatPrefix(chunks[..k], j);
  }

  // ---------------------------------------------------------------------------------------------
  // Chunk updates

  /** A later chunk update with the same id overwrites an earlier one completely. */
  lemma WithContentOverwrites(s: ChatState, id: nat, a: string, b: string)
    ensures WithContent(WithContent(s, id, a), id, b) == WithContent(s, id, b)
  {
    var left := WithContent(WithContent(s, id, a), id, b).messages;
    var right := WithContent(s, id, b).messages;
    assert |left| == |right|;
    forall i | 0 <= i < |left| ensures left[i] == right[i] {
    }
  }

  /**
   * Replacing the content in every update means the whole stream amounts to one update with the
   * final buffer; with no chunks the state is untouched.
   */
  lemma {:induction false} StreamedIsLastUpdate(s: ChatState, id: nat, chunks: seq<string>)
    ensures Streamed(s, id, chunks) == if chunks == [] then s else WithContent(s, id, Concat(chunks))
    decreases |chunks|
  {
    if chunks != [] {
      var init := chunks[..|chunks| - 1];
      StreamedIsLastUpdate(s, id, init);
      if init != [] {
        WithContentOverwrites(s, id, Concat(init), Concat(chunks));
      }
    }
  }

  /**
   * Without any assumption on ids: after the chunks, every message carrying the assistant id holds
   * the buffer (or its old content if no chunk came) and every other message is as it was.
   */
  lemma StreamedUpdatesEveryMatch(s: ChatState, id: nat, chunks: seq<string>, i: nat)
    requires i < |s.messages|
    ensures var r := Streamed(s, id, chunks);
      i < |r.messages| &&
      r.messages[i] == if s.messages[i].id == id && chunks != []
                       then s.messages[i].(content := Concat(chunks))
                       else s.messages[i]
  {
    StreamedIsLastUpdate(s, id, chunks);
  }

  /**
   * With fresh ids, after the first k chunks the assistant placeholder (the last message) holds
   * the concatenation of chunks 0..k-1 and every other message is unchanged; this is the state the
   * page shows after the k-th chunk update.
   */
  lemma StreamPrefix(prev: ChatState, content: string, clock: TurnClock, chunks: seq<string>, k: nat)
    requires FreshTurnIds(prev, clock)
    requires k <= |chunks|
    ensures Streamed(Started(prev, content, clock), AssistantId(clock), chunks[..k]).messages
      == prev.messages + [UserMessage(content, clock), AssistantMessage(clock).(content := Concat(chunks[..k]))]
  {
    var start := Started(prev, content, clock);
    var r := Streamed(start, AssistantId(clock), chunks[..k]);
    var expected := prev.messages + [UserMessage(content, clock), AssistantMessage(clock).(content := Concat(chunks[..k]))];
    StreamedIsLastUpdate(start, AssistantId(clock), chunks[..k]);
    assert |r.messages| == |expected|;
    forall i | 0 <= i < |expected| ensures r.messages[i] == expected[i] {
      if i < |prev.messages| {
        assert start.messages[i] == prev.messages[i];
      }
    }
  }

  // ---------------------------------------------------------------------------------------------
  // A whole turn

  /**
   * With fresh ids a turn leaves the earlier messages alone and ends with the user message and the
   * assistant message holding everything that arrived, whether the stream completed or failed.
   */
  lemma TurnMessages(prev: ChatState, content: string, clock: TurnClock, stream: Stream)
    requires FreshTurnIds(prev, clock)
    ensures Turn(prev, content, clock, stream).messages
      == prev.messages + [UserMessage(content, clock), AssistantMessage(clock).(content := Concat(stream.chunks))]
  {
    StreamPrefix(prev, content, clock, stream.chunks, |stream.chunks|);
    assert stream.chunks[..|stream.chunks|] == stream.chunks;
  }

  /**
   * A failed turn keeps the text received before the failure, shows the fixed error text and
   * leaves the page idle. No assumption on ids is needed: the assistant message is the last one
   * and carries the assistant id, so every chunk update reaches it.
   */
  lemma FailureKeepsPartialContent(prev: ChatState, content: string, clock: TurnClock, stream: Stream)
    requires stream.fails
    ensures var r := Turn(prev, content, clock, stream);
      r.error == Some(FailureText) && !r.isLoading &&
      r.messages[|r.messages| - 1].content == Concat(stream.chunks)
  {
    StreamedUpdatesEveryMatch(Started(prev, content, clock), AssistantId(clock), stream.chunks, |prev.messages| + 1);
  }

  /**
   * The turn's ids are fresh when the clock does not run backwards during the turn and every
   * earlier id is at most the turn's first reading. Since an earlier assistant id is its reading
   * plus one, the second condition needs at least a millisecond between the previous turn's second
   * reading and this turn's first.
   */
  lemma MonotoneClockGivesFreshIds(prev: ChatState, clock: TurnClock)
    requires clock.userNow <= clock.assistantNow
    requires forall i :: 0 <= i < |prev.messages| ==> prev.messages[i].id <= clock.userNow
    ensures FreshTurnIds(prev, clock)
  {
  }

  /**
   * Two turns within the same millisecond clash. The first turn's assistant message has id 6 (a
   * reading of 5, plus one); a second turn whose readings are all 5 gives its assistant message id 6
   * too, so the second turn's chunks overwrite the first reply as well.
   */
  lemma SameMillisecondTurnsClash()
    ensures var prev := ChatState([Message(5, User, "q1", 5), Message(6, Assistant, "a1", 5)], false, None);
      var clock := TurnClock(5, 5, 5, 5);
      !FreshTurnIds(prev, clock) &&
      Turn(prev, "q2", clock, Stream(["x"], false)).messages[1].content == "x"
  {
    var prev := ChatState([Message(5, User, "q1", 5), Message(6, Assistant, "a1", 5)], false, None);
    var clock := TurnClock(5, 5, 5, 5);
    assert prev.messages[1].id == AssistantId(clock);
    StreamedUpdatesEveryMatch(Started(prev, "q2", clock), AssistantId(clock), ["x"], 1);
    assert Concat(["x"]) == "x" by {
      assert ["x"][..0] == [];
    }
  }

  // ---------------------------------------------------------------------------------------------
  // The typing indicator

  /**
   * While the turn is streaming the placeholder is drawn exactly as long as no chunk so far has
   * carried any text. This holds whatever the ids are.
   */
  lemma IndicatorWhileStreaming(prev: ChatState, content: string, clock: TurnClock, chunks: seq<string>, k: nat)
    requires k <= |chunks|
    ensures ShowsTypingIndicator(Streamed(Started(prev, content, clock), AssistantId(clock), chunks[..k]))
      <==> Concat(chunks[..k]) == ""
  {
    var start := Started(prev, content, clock);
    var done := chunks[..k];
    var r := Streamed(start, AssistantId(clock), done);
    var last := |prev.messages| + 1;
    StreamedUpdatesEveryMatch(start, AssistantId(clock), done, last);
    assert start.messages[last] == AssistantMessage(clock);
    assert |r.messages| == last + 1 && r.isLoading;
    assert r.messages[last].content == Concat(done);
  }

  /** Once a turn is over the placeholder is gone. */
  lemma NoIndicatorAfterTurn(prev: ChatState, content: string, clock: TurnClock, stream: Stream)
    ensures !ShowsTypingIndicator(Turn(prev, content, clock, stream))
  {
  }
}
