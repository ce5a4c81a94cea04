/** The chat page (frontend/src/app/page.tsx): `handleSendMessage` with the three callbacks it
    registers on the streaming call, and `handleToggleRecording`. The page's React state is
    the fields of `ChatController`; `accumulated` is the closure variable `accumulatedContent`
    of the latest send. The chat API and the speech service are outside the model: a send is
    told whether the stream started, and each callback is a method the host calls. */
module ChatPage {
  import opened Options
  import Text

  datatype Role = UserRole | AssistantRole

  /** `new Date()` on the client, or `new Date(metadata.timestamp)` from the server. */
  datatype Timestamp = ClientClock(millis: nat) | ServerTime(iso: string)

  datatype Message = Message(id: string, role: Role, content: string, timestamp: Timestamp, sources: Option<seq<string>>)

  /** The argument of the completion callback. */
  datatype StreamMetadata = StreamMetadata(conversationId: string, messageId: string, timestamp: string)

  /** The request handed to `chatAPI.sendMessageStream`. */
  datatype StreamRequest = StreamRequest(message: string, conversationId: Option<string>)

  /** A call made to the speech service. */
  datatype SpeechCall = StartListening | StopListening

  /** The fixed text of the bubble shown when the stream reports an error. */
  const ErrorBubbleText := "⚠️ Erreur de connexion au serveur."

  /** The guard at the top of `handleSendMessage`: non-blank text and no stream in flight. */
  predicate AcceptsSend(text: string, isLoading: bool) {
    Text.Trim(text) != [] && !isLoading
  }

  /** A send is refused exactly for blank text (only JavaScript whitespace) or while loading. */
  lemma AcceptsSendIff(text: string, isLoading: bool)
    ensures AcceptsSend(text, isLoading) <==>
      !isLoading && exists i :: 0 <= i < |text| && !Text.IsJsSpace(text[i])
  {
    Text.TrimEmptyIff(text);
  }

  /** The message `handleSendMessage` appends for the viewer's text: the text as typed, untrimmed. */
  function UserMessage(text: string, now: nat): Message {
    Message(Text.Decimal(now), UserRole, text, ClientClock(now), None)
  }

  /** The message the completion callback appends for a fully received reply. */
  function ReplyMessage(meta: StreamMetadata, content: string): Message {
    Message(meta.messageId, AssistantRole, content, ServerTime(meta.timestamp), Some([]))
  }

  /** The message the error callback appends; the callback's own argument is not used. */
  function ErrorMessage(now: nat): Message {
    Message(Text.Decimal(now), AssistantRole, ErrorBubbleText, ClientClock(now), None)
  }

  /** The fragments joined in arrival order. */
  function Concat(chunks: seq<string>): string {
    if chunks == [] then "" else Concat(chunks[..|chunks| - 1]) + chunks[|chunks| - 1]
  }

  class ChatController {
    var messages: seq<Message>
    var isLoading: bool
    var conversationId: Option<string>
    var streamingContent: string
    /** `accumulatedContent` of the latest send. */
    var accumulated: string
    /** `conversationId` as the latest send's callbacks captured it. */
    var capturedConversationId: Option<string>
    /** The fragments delivered to the latest send, in arrival order. */
    ghost var chunks: seq<string>
    /** Every request handed to the chat API, oldest first. */
    var requests: seq<StreamRequest>
    var isRecording: bool
    var speechCalls: seq<SpeechCall>

    /** The buffer holds exactly the fragments received so far, and the visible streaming
        text is either cleared or that buffer. */
    ghost predicate Valid()
      reads this
    {
      accumulated == Concat(chunks) && (streamingContent == "" || streamingContent == accumulated)
    }

    constructor ()
      ensures Valid()
      ensures messages == [] && !isLoading && conversationId == None && streamingContent == ""
      ensures requests == [] && !isRecording && speechCalls == []
    {
      messages := [];
      isLoading := false;
      conversationId := None;
      streamingContent := "";
      accumulated := "";
      capturedConversationId := None;
      chunks := [];
      requests := [];
      isRecording := false;
      speechCalls := [];
    }

    /** `handleSendMessage(text)`. `now` is the client clock in milliseconds; `started` says
        whether `sendMessageStream` got under way (`false`: it threw before any callback, and
        the catch only clears `isLoading`). */
    method SendMessage(text: string, now: nat, started: bool) returns (accepted: bool)
      requires Valid()
      modifies this
      ensures Valid()
      ensures accepted == AcceptsSend(text, old(isLoading))
      ensures !accepted ==> (messages == old(messages) && isLoading == old(isLoading)
        && streamingContent == old(streamingContent) && requests == old(requests)
        && chunks == old(chunks) && accumulated == old(accumulated)
        && capturedConversationId == old(capturedConversationId))
      ensures accepted ==> (messages == old(messages) + [UserMessage(text, now)]
        && streamingContent == "" && accumulated == "" && chunks == [] && isLoading == started
        && requests == old(requests) + [StreamRequest(text, old(conversationId))]
        && capturedConversationId == old(conversationId))
      ensures conversationId == old(conversationId)
      ensures isRecording == old(isRecording) && speechCalls == old(speechCalls)
    {
      accepted := AcceptsSend(text, isLoading);
      if accepted {
        Start(text, now, started);
      }
    }

    /** The state change of an accepted send. */
    method Start(text: string, now: nat, started: bool)
      modifies this
      ensures Valid()
      ensures messages == old(messages) + [UserMessage(text, now)]
      ensures streamingContent == "" && accumulated == "" && chunks == [] && isLoading == started
      ensures requests == old(requests) + [StreamRequest(text, old(conversationId))]
      ensures capturedConversationId == old(conversationId) && conversationId == old(conversationId)
      ensures isRecording == old(isRecording) && speechCalls == old(speechCalls)
    {
      messages := messages + [UserMessage(text, now)];
      streamingContent := "";
      accumulated := "";
      chunks := [];
      capturedConversationId := conversationId;
      requests := requests + [StreamRequest(text, conversationId)];
      // Set before the call; the catch of a call that never started clears it again.
      isLoading := started;
    }

    /** The chunk callback: the fragment is appended to the buffer, which becomes the visible text. */
    method OnChunk(chunk: string)
      requires Valid()
      modifies this
      ensures Valid()
      ensures chunks == old(chunks) + [chunk] && accumulated == old(accumulated) + chunk
      ensures streamingContent == Concat(chunks)
      ensures messages == old(messages) && isLoading == old(isLoading) && conversationId == old(conversationId)
      ensures requests == old(requests) && capturedConversationId == old(capturedConversationId)
      ensures isRecording == old(isRecording) && speechCalls == old(speechCalls)
    {
      accumulated := accumulated + chunk;
      chunks := chunks + [chunk];
      assert chunks[..|chunks| - 1] == old(chunks);
      streamingContent := accumulated;
    }

    /** The completion callback: binds the conversation id if the send saw none, and appends
        one assistant message holding everything received. */
    method OnComplete(meta: StreamMetadata)
      requires Valid()
      modifies this
      ensures Valid()
      ensures messages == old(messages) + [ReplyMessage(meta, Concat(chunks))]
      ensures conversationId ==
        if Truthy(old(capturedConversationId)) then old(conversationId) else Some(meta.conversationId)
      ensures streamingContent == "" && !isLoading
      ensures chunks == old(chunks) && requests == old(requests)
      ensures capturedConversationId == old(capturedConversationId)
      ensures isRecording == old(isRecording) && speechCalls == old(speechCalls)
    {
      if !Truthy(capturedConversationId) {
        conversationId := Some(meta.conversationId);
      }
      messages := messages + [ReplyMessage(meta, accumulated)];
      streamingContent := "";
      isLoading := false;
    }

    /** The error callback: one assistant message with the fixed error text. */
    method OnError(now: nat)
      requires Valid()
      modifies this
      ensures Valid()
      ensures messages == old(messages) + [ErrorMessage(now)]
      ensures streamingContent == "" && !isLoading
      ensures conversationId == old(conversationId) && chunks == old(chunks) && requests == old(requests)
      ensures capturedConversationId == old(capturedConversationId)
      ensures isRecording == old(isRecording) && speechCalls == old(speechCalls)
    {
      messages := messages + [ErrorMessage(now)];
      streamingContent := "";
      isLoading := false;
    }

    /** One whole exchange as the chat API delivers it: the send, every fragment in order,
        then the completion. The reply holds the fragments joined in arrival order. */
    method ExchangeWithReply(text: string, now: nat, fragments: seq<string>, meta: StreamMetadata)
      returns (accepted: bool)
      requires Valid()
      modifies this
      ensures Valid()
      ensures accepted == AcceptsSend(text, old(isLoading))
      ensures !accepted ==> messages == old(messages)
      ensures accepted ==>
        messages == old(messages) + [UserMessage(text, now), ReplyMessage(meta, Concat(fragments))]
        && streamingContent == "" && !isLoading
        && conversationId == if Truthy(old(conversationId)) then old(conversationId) else Some(meta.conversationId)
    {
      accepted := SendMessage(text, now, true);
      if !accepted {
        return;
      }
      var i := 0;
      while i < |fragments|
        invariant 0 <= i <= |fragments|
        invariant Valid() && chunks == fragments[..i]
        invariant messages == old(messages) + [UserMessage(text, now)]
        invariant conversationId == old(conversationId) && capturedConversationId == old(conversationId)
      {
        OnChunk(fragments[i]);
        assert fragments[..i + 1] == fragments[..i] + [fragments[i]];
        i := i + 1;
      }
      assert fragments[..i] == fragments;
      OnComplete(meta);
    }

    /** `handleToggleRecording`. */
    method ToggleRecording()
      modifies this
      ensures isRecording == !old(isRecording)
      ensures speechCalls == old(speechCalls) + [if old(isRecording) then StopListening else StartListening]
      ensures messages == old(messages) && isLoading == old(isLoading) && requests == old(requests)
      ensures streamingContent == old(streamingContent) && accumulated == old(accumulated)
      ensures chunks == old(chunks) && conversationId == old(conversationId)
      ensures capturedConversationId == old(capturedConversationId)
    {
      if isRecording {
        speechCalls := speechCalls + [StopListening];
        isRecording := false;
      } else {
        isRecording := true;
        speechCalls := speechCalls + [StartListening];
      }
    }

    /** The recognition result callback: the transcript is sent like typed text, then
        recording stops. */
    method OnTranscript(transcript: string, now: nat, started: bool) returns (accepted: bool)
      requires Valid()
      modifies this
      ensures Valid()
      ensures accepted == AcceptsSend(transcript, old(isLoading))
      ensures !accepted ==> (messages == old(messages) && isLoading == old(isLoading)
        && streamingContent == old(streamingContent) && requests == old(requests)
        && chunks == old(chunks) && accumulated == old(accumulated)
        && capturedConversationId == old(capturedConversationId))
      ensures accepted ==> (messages == old(messages) + [UserMessage(transcript, now)]
        && streamingContent == "" && accumulated == "" && chunks == [] && isLoading == started
        && requests == old(requests) + [StreamRequest(transcript, old(conversationId))]
        && capturedConversationId == old(conversationId))
      ensures conversationId == old(conversationId)
      ensures !isRecording && speechCalls == old(speechCalls)
    {
      accepted := SendMessage(transcript, now, started);
      isRecording := false;
    }

    /** The recognition end/error callback. */
    method OnListeningEnded()
      modifies this
      ensures !isRecording
      ensures messages == old(messages) && isLoading == old(isLoading) && speechCalls == old(speechCalls)
      ensures streamingContent == old(streamingContent) && accumulated == old(accumulated) && chunks == old(chunks)
      ensures conversationId == old(conversationId) && requests == old(requests)
      ensures capturedConversationId == old(capturedConversationId)
    {
      isRecording := false;
    }
  }

  /** The joined fragments of a longer delivery extend those of a shorter one. */
  lemma {:induction false} ConcatAppend(a: seq<string>, b: seq<string>)
    ensures Concat(a + b) == Concat(a) + Concat(b)
    decreases |b|
  {
    if b == [] {
      assert a + b == a;
    } else {
      var b', x := b[..|b| - 1], b[|b| - 1];
      assert b == b' + [x];
      assert a + b == (a + b') + [x];
      ConcatSnoc(a + b', x);
      ConcatSnoc(b', x);
      ConcatAppend(a, b');
    }
  }

  /** One more fragment extends the joined text by exactly that fragment. */
  lemma ConcatSnoc(chunks: seq<string>, x: string)
    ensures Concat(chunks + [x]) == Concat(chunks) + x
  {
    assert (chunks + [x])[..|chunks|] == chunks;
  }

  /** The fragments received so far never join to more text than the whole delivery. */
  lemma {:induction false} ConcatLength(chunks: seq<string>, k: nat)
    requires k <= |chunks|
    ensures |Concat(chunks[..k])| <= |Concat(chunks)|
  {
    assert chunks == chunks[..k] + chunks[k..];
    ConcatAppend(chunks[..k], chunks[k..]);
  }
}
