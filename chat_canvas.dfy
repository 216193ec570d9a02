/**
 * The chat canvas the application page mounts (`components/app/chat-canvas.tsx`).
 * It keeps an `isStreaming` flag beside the streaming message id, adds the
 * user message and the placeholder with `addMessage`, and builds every later
 * write by mapping over the session's messages as they were when the handler
 * started.
 */
module ChatCanvas {
  import opened Wrappers
  import opened ChatTypes
  import opened Seqs
  import opened ChatStore
  import opened LawyerClient
  import opened ChatCanvasFixed

  /** The list the send handler writes after the two appends: the pre-send messages, mapped. */
  function SnapshotWrite(snapshot: seq<Message>, assistantId: string, content: string, streaming: bool): seq<Message> {
    Retarget(snapshot, assistantId, content, streaming)
  }

  /** The placeholder's id is fresh, so mapping over the pre-send messages finds nothing to rewrite. */
  lemma SnapshotWriteIsSnapshot(snapshot: seq<Message>, assistantId: string, content: string, streaming: bool)
    requires forall k :: 0 <= k < |snapshot| ==> snapshot[k].id != assistantId
    ensures SnapshotWrite(snapshot, assistantId, content, streaming) == snapshot
  {
  }

  class Canvas {
    var store: Store
    var isStreaming: bool
    var streamingMessageId: Option<string>

    constructor (store: Store)
      ensures this.store == store && !isStreaming && streamingMessageId == None
    {
      this.store := store;
      isStreaming := false;
      streamingMessageId := None;
    }

    /** The composer is disabled exactly while streaming. */
    predicate ComposerDisabled()
      reads this
    {
      isStreaming
    }

    /**
     * `handleSendMessage`: without a client or a session nothing happens.
     * Otherwise the user message and the placeholder are appended (so the
     * title rule of `addMessage` applies), the request carries the snapshot
     * and the user message, and every later write is the snapshot mapped;
     * both flags are cleared on every path.
     */
    method HandleSendMessage(session: Option<Session>, client: Option<ChatClient>, content: string,
                             attachments: seq<UploadRef>, userId: string, assistantId: string, now: Date,
                             tokens: seq<string>, outcome: Outcome)
      returns (request: Option<SendChatOptions>)
      modifies this`isStreaming, this`streamingMessageId, store`sessions, if client.Some? then {client.value} else {}
      ensures client.None? || session.None? ==>
        && request.None? && store.sessions == old(store.sessions)
        && isStreaming == old(isStreaming) && streamingMessageId == old(streamingMessageId)
      ensures client.Some? && session.Some? ==>
        && request == Some(SendChatOptions(session.value.messages + [UserMessage(userId, content, now)],
                                           None, session.value.jurisdiction, Some(attachments)))
        && store.sessions == WriteMessages(
             AppendTo(AppendTo(old(store.sessions), session.value.id, UserMessage(userId, content, now), now),
                      session.value.id, Placeholder(assistantId, now), now),
             session.value.id,
             SnapshotWrite(session.value.messages, assistantId, FinalContent(tokens, outcome, StoppedText, SendErrorText), false),
             now)
        && !isStreaming && streamingMessageId == None
        && client.value.abortController.Some? && fresh(client.value.abortController.value)
    {
      if client.None? || session.None? {
        return None;
      }
      var sid := session.value.id;
      var snapshot := session.value.messages;
      var user := UserMessage(userId, content, now);
      store.AddMessage(sid, user, now);
      store.AddMessage(sid, Placeholder(assistantId, now), now);
      isStreaming := true;
      streamingMessageId := Some(assistantId);
      request := Some(SendChatOptions(snapshot + [user], None, session.value.jurisdiction, Some(attachments)));
      var body := client.value.BeginSendChat(request.value);
      var write := (c: string, streaming: bool) => SnapshotWrite(snapshot, assistantId, c, streaming);
      var last := FinalContent(tokens, outcome, StoppedText, SendErrorText);
      var full := StreamThenSettle(store, sid, write, now, tokens, last);
      isStreaming := false;
      streamingMessageId := None;
    }

    /**
     * `handleRegenerate`: as in the other canvas, plus the `isStreaming`
     * flag, which is set while the stream is read and cleared on every path.
     */
    method HandleRegenerate(session: Option<Session>, client: Option<ChatClient>, messageId: string, now: Date,
                            tokens: seq<string>, outcome: Outcome)
      returns (request: Option<SendChatOptions>)
      modifies this`isStreaming, this`streamingMessageId, store`sessions, if client.Some? then {client.value} else {}
      ensures client.None? || session.None? || IndexOfMessage(session.value.messages, messageId).None? ==>
        && request.None? && store.sessions == old(store.sessions)
        && isStreaming == old(isStreaming) && streamingMessageId == old(streamingMessageId)
      ensures client.Some? && session.Some? && IndexOfMessage(session.value.messages, messageId).Some? ==>
        && request == Some(SendChatOptions(session.value.messages[..IndexOfMessage(session.value.messages, messageId).value],
                                           None, session.value.jurisdiction, None))
        && store.sessions == WriteMessages(old(store.sessions), session.value.id,
             Retarget(session.value.messages, messageId, FinalContent(tokens, outcome, RegenStoppedText, RegenErrorText), false), now)
        && !isStreaming && streamingMessageId == None
        && client.value.abortController.Some? && fresh(client.value.abortController.value)
    {
      if client.None? || session.None? {
        return None;
      }
      var index := IndexOfMessage(session.value.messages, messageId);
      if index.None? {
        return None;
      }
      var sid := session.value.id;
      var msgs := session.value.messages;
      isStreaming := true;
      streamingMessageId := Some(messageId);
      request := Some(SendChatOptions(msgs[..index.value], None, session.value.jurisdiction, None));
      var body := client.value.BeginSendChat(request.value);
      RegenerateWrites(store, sid, msgs, messageId, now, tokens, FinalContent(tokens, outcome, RegenStoppedText, RegenErrorText));
      isStreaming := false;
      streamingMessageId := None;
    }

    /**
     * `handleStopGeneration`: only with a client while streaming. It aborts
     * the call and clears both flags; then, with a session and a streaming
     * message id (as read before the clear), it appends the stop suffix to
     * that message.
     */
    method HandleStopGeneration(session: Option<Session>, client: Option<ChatClient>, now: Date)
      modifies this`isStreaming, this`streamingMessageId, store`sessions,
        if client.Some? && client.value.abortController.Some? then {client.value.abortController.value} else {}
      ensures !(client.Some? && old(isStreaming)) ==>
        && store.sessions == old(store.sessions)
        && isStreaming == old(isStreaming) && streamingMessageId == old(streamingMessageId)
      ensures client.Some? && old(isStreaming) ==>
        && !isStreaming && streamingMessageId == None
        && (client.value.abortController.Some? ==> client.value.abortController.value.aborted)
        && (session.Some? && old(streamingMessageId).Some? ==>
              store.sessions == WriteMessages(old(store.sessions), session.value.id,
                MarkStopped(session.value.messages, old(streamingMessageId).value), now))
        && (session.None? || old(streamingMessageId).None? ==> store.sessions == old(store.sessions))
    {
      if client.Some? && isStreaming {
        client.value.Abort();
        var id := streamingMessageId;
        isStreaming := false;
        streamingMessageId := None;
        if session.Some? && id.Some? {
          store.UpdateSession(session.value.id, MessagesPatch(MarkStopped(session.value.messages, id.value)), now);
        }
      }
    }
  }

  /**
   * The discrepancy of this canvas: when the session passed in is the
   * store's session (so its messages are the snapshot), the send handler
   * ends with that session holding exactly the pre-send messages again, on
   * every path and whatever the stream delivered; the user's message and the
   * reply are gone, while the title the first `addMessage` derived stays.
   */
  lemma SendRevertsMessages(sessions: seq<Session>, i: nat, user: Message, assistantId: string, now: Date,
                            final: string)
    requires i < |sessions|
    requires forall k :: 0 <= k < |sessions[i].messages| ==> sessions[i].messages[k].id != assistantId
    ensures var sid := sessions[i].id;
      var after := WriteMessages(
        AppendTo(AppendTo(sessions, sid, user, now), sid, Placeholder(assistantId, now), now),
        sid, SnapshotWrite(sessions[i].messages, assistantId, final, false), now);
      && |after| == |sessions|
      && after[i].messages == sessions[i].messages
      && after[i].title == AppendMessage(sessions[i], user, now).title
  {
    var sid := sessions[i].id;
    SnapshotWriteIsSnapshot(sessions[i].messages, assistantId, final, false);
    var a1 := AppendTo(sessions, sid, user, now);
    var a2 := AppendTo(a1, sid, Placeholder(assistantId, now), now);
    AppendMessageTitle(a1[i], Placeholder(assistantId, now), now);
  }

  /**
   * The same send in the other canvas keeps the exchange: the session ends
   * with the pre-send messages, the user message and the finished reply.
   */
  lemma FixedSendKeepsExchange(sessions: seq<Session>, i: nat, user: Message, assistantId: string, now: Date,
                               final: string)
    requires i < |sessions|
    ensures var sid := sessions[i].id;
      var after := WriteMessages(sessions, sid,
        Exchange(sessions[i].messages, user, Placeholder(assistantId, now), final, false), now);
      && after[i].messages[..|sessions[i].messages|] == sessions[i].messages
      && after[i].messages[|sessions[i].messages|] == user
      && after[i].messages[|sessions[i].messages| + 1].content == final
      && |after[i].messages| == |sessions[i].messages| + 2
  {
  }
}
